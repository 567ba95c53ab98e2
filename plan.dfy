/**
 * What the helpers shared by index.js and AutoIndex.js do, as functions of the world and
 * of the moment at which they run: the events they record and the values they return.
 * The methods of `Session.Client` are proved to follow these; the lemmas here state the
 * properties of the helpers in terms of them.
 */
module Plan {
  import opened Apis
  import opened Remote
  import opened Verdicts
  import Tasks

  const AuthPause := 500     // between token requests, and after each account in an action loop

  // ---------------------------------------------------------------------------
  // Tokens: initializeBearers and refreshBearer (index.js:47-72, AutoIndex.js:40-54)

  /** The token a token request made at `m` yields, or `null` when it fails. */
  function TokenAt(w: World, m: Moment, queryId: string): Option<string> {
    match w.auth(m, queryId)
    case Ok(body) => Some(body.access)
    case _ => None
  }

  /** refreshBearer (index.js:65-72): the token getBearerToken returns, or `null` exactly when
      it throws. */
  lemma RefreshYieldsToken(w: World, m: Moment, queryId: string)
    ensures TokenAt(w, m, queryId).None? <==> GetBearerToken(w.auth(m, queryId)).Thrown?
    ensures TokenAt(w, m, queryId).Some? ==> TokenAt(w, m, queryId).value == GetBearerToken(w.auth(m, queryId)).value
  {
  }

  /** The array the batch run at `m` builds: the i-th request is its i-th step. */
  function Batch(w: World, ids: seq<string>, m: Moment): seq<Option<string>>
    decreases |ids|
  {
    if ids == [] then []
    else
      var n := |ids| - 1;
      Batch(w, ids[..n], m) + [TokenAt(w, At(m, n), ids[n])]
  }

  /** The requests of the batch, each followed by its pause. */
  function AuthPacing(ids: seq<string>): seq<Event>
    decreases |ids|
  {
    if ids == [] then []
    else
      var n := |ids| - 1;
      AuthPacing(ids[..n]) + [Call(Auth(ids[n])), Sleep(AuthPause)]
  }

  /** Everything the batch does: the paced requests, then one save of the whole array. */
  function InitEvents(w: World, ids: seq<string>, m: Moment): seq<Event> {
    AuthPacing(ids) + [Save(Batch(w, ids, m))]
  }

  /** One token per query id, in order: the i-th is what the i-th request yields. */
  lemma {:induction false} BatchAt(w: World, ids: seq<string>, m: Moment)
    ensures |Batch(w, ids, m)| == |ids|
    ensures forall i :: 0 <= i < |ids| ==> Batch(w, ids, m)[i] == TokenAt(w, At(m, i), ids[i])
    decreases |ids|
  {
    if ids != [] {
      BatchAt(w, ids[..|ids| - 1], m);
    }
  }

  /** `null` stands exactly where the request threw; elsewhere stands the token it returned. */
  lemma BatchNullIffThrown(w: World, ids: seq<string>, m: Moment, i: nat)
    requires i < |ids|
    ensures |Batch(w, ids, m)| == |ids|
    ensures Batch(w, ids, m)[i].None? <==> GetBearerToken(w.auth(At(m, i), ids[i])).Thrown?
    ensures Batch(w, ids, m)[i].Some? ==> Batch(w, ids, m)[i].value == w.auth(At(m, i), ids[i]).value.access
  {
    BatchAt(w, ids, m);
    RefreshYieldsToken(w, At(m, i), ids[i]);
  }

  /** The 2k-th event is the request for the k-th id and the next one is its pause, also
      after the last id. */
  lemma {:induction false} AuthPacingAt(ids: seq<string>)
    ensures |AuthPacing(ids)| == 2 * |ids|
    ensures forall k :: 0 <= k < |ids| ==>
              AuthPacing(ids)[2 * k] == Call(Auth(ids[k])) && AuthPacing(ids)[2 * k + 1] == Sleep(AuthPause)
    ensures forall k :: 0 <= k < |AuthPacing(ids)| ==> !AuthPacing(ids)[k].Save?
    decreases |ids|
  {
    if ids != [] {
      var n := |ids| - 1;
      AuthPacingAt(ids[..n]);
      assert AuthPacing(ids) == AuthPacing(ids[..n]) + [Call(Auth(ids[n])), Sleep(AuthPause)];
    }
  }

  /** The batch saves once, after its last pause, and the saved array is the returned one. */
  lemma SavedOnceAtEnd(w: World, ids: seq<string>, m: Moment)
    ensures |InitEvents(w, ids, m)| == 2 * |ids| + 1
    ensures InitEvents(w, ids, m)[2 * |ids|] == Save(Batch(w, ids, m))
    ensures forall k :: 0 <= k < 2 * |ids| ==> !InitEvents(w, ids, m)[k].Save?
  {
    AuthPacingAt(ids);
    var es := InitEvents(w, ids, m);
    forall k | 0 <= k < 2 * |ids|
      ensures !es[k].Save?
    {
      assert es[k] == AuthPacing(ids)[k];
    }
  }

  // ---------------------------------------------------------------------------
  // Snapshots: getUserData (index.js:74-108, AutoIndex.js:56-90)

  const Connected := "YES"

  datatype Snapshot = Snapshot(username: string, balance: string, tribe: string,
                               playChances: string, walletConnected: string)

  const Blank := Snapshot(NotAvailable, NotAvailable, NotAvailable, NotAvailable, NotAvailable)

  /** The four requests, in the order the code makes them. */
  function UserDataEvents(b: string): seq<Event> {
    [Call(UserMe(b)), Call(UserBalance(b)), Call(TribeMy(b)), Call(WalletMy(b))]
  }

  /** `userMe.username || 'N/A'`. */
  function UsernameField(r: Result<UserMeBody>): string {
    if r.Returned? && Truthy(r.value.username) then r.value.username.value else NotAvailable
  }

  /** `availableBalance !== undefined ? availableBalance : 'N/A'`. */
  function BalanceField(r: Result<Balance>): string {
    if r.Returned? && r.value.availableBalance.Some? then r.value.availableBalance.value else NotAvailable
  }

  /** `playPasses !== undefined ? playPasses : 'N/A'`. */
  function PlayChancesField(r: Result<Balance>): string {
    if r.Returned? && r.value.playPasses.Some? then r.value.playPasses.value else NotAvailable
  }

  function TribeField(r: Result<string>): string {
    if r.Returned? then r.value else NotAvailable
  }

  /** `walletInfo.address ? 'YES' : 'N/A'`. */
  function WalletField(r: Result<WalletInfo>): string {
    if r.Returned? && Truthy(r.value.address) then Connected else NotAvailable
  }

  /** The record `getUserData(b)` returns when run at `m`. */
  function UserDataAt(w: World, b: string, m: Moment): Snapshot {
    var points := GetUserBalance(w.balance(m, b));
    Snapshot(UsernameField(GetUsername(w.userMe(m, b))), BalanceField(points),
             TribeField(GetTribeInfo(w.tribe(m, b))), PlayChancesField(points),
             WalletField(GetWalletBalance(w.wallet(m, b))))
  }

  /** Each field falls back to `'N/A'` on its own request's failure, whatever the others do. */
  lemma SnapshotFallback(w: World, b: string, m: Moment)
    ensures var s := UserDataAt(w, b, m);
            (s.username == NotAvailable <==>
               !(w.userMe(m, b).Ok? && Truthy(w.userMe(m, b).value.username)) ||
               w.userMe(m, b).value.username.value == NotAvailable) &&
            (!w.balance(m, b).Ok? ==> s.balance == NotAvailable && s.playChances == NotAvailable) &&
            (w.balance(m, b).Ok? && w.balance(m, b).value.availableBalance.Some? ==>
               s.balance == w.balance(m, b).value.availableBalance.value) &&
            (!w.tribe(m, b).Ok? && !(w.tribe(m, b).HttpErr? && w.tribe(m, b).status == 404) ==>
               s.tribe == NotAvailable) &&
            (s.walletConnected == Connected <==> w.wallet(m, b).Ok? && Truthy(w.wallet(m, b).value.address)) &&
            (s.walletConnected != Connected ==> s.walletConnected == NotAvailable)
  {
  }

  // ---------------------------------------------------------------------------
  // The account build (index.js:564-587, AutoIndex.js:183-206)

  datatype Account = Account(snapshot: Snapshot, bearer: Option<string>)

  /** What the build stores as an account's token: the token when truthy, else `null`. */
  function Normalize(b: Option<string>): (r: Option<string>)
    ensures Truthy(r) <==> Truthy(b)
    ensures r.Some? ==> r == b
  {
    if Truthy(b) then b else None
  }

  /** The requests of the build: `getUserData` for every truthy token. */
  function BuildEvents(bs: seq<Option<string>>): seq<Event>
    decreases |bs|
  {
    if bs == [] then []
    else
      var n := |bs| - 1;
      BuildEvents(bs[..n]) + (if Truthy(bs[n]) then UserDataEvents(bs[n].value) else [])
  }

  /** The accounts the build run at `m` makes: the i-th is its i-th step. */
  function Built(w: World, bs: seq<Option<string>>, m: Moment): seq<Account>
    decreases |bs|
  {
    if bs == [] then []
    else
      var n := |bs| - 1;
      Built(w, bs[..n], m) +
        [if Truthy(bs[n]) then Account(UserDataAt(w, bs[n].value, At(m, n)), bs[n]) else Account(Blank, None)]
  }

  /** One account per token, with the normalised token; the fetched record where the token is
      truthy, and a blank one where it is falsy. */
  lemma BuiltShape(w: World, bs: seq<Option<string>>, m: Moment)
    ensures |Built(w, bs, m)| == |bs|
    ensures forall i :: 0 <= i < |bs| ==> Built(w, bs, m)[i].bearer == Normalize(bs[i])
    ensures forall i :: 0 <= i < |bs| ==>
              Built(w, bs, m)[i].snapshot == if Truthy(bs[i]) then UserDataAt(w, bs[i].value, At(m, i)) else Blank
  {
    BuiltBearers(w, bs, m);
    BuiltSnapshots(w, bs, m);
  }

  lemma {:induction false} BuiltBearers(w: World, bs: seq<Option<string>>, m: Moment)
    ensures |Built(w, bs, m)| == |bs|
    ensures forall i :: 0 <= i < |bs| ==> Built(w, bs, m)[i].bearer == Normalize(bs[i])
    decreases |bs|
  {
    if bs != [] {
      var n := |bs| - 1;
      BuiltBearers(w, bs[..n], m);
      assert forall i :: 0 <= i < n ==> bs[..n][i] == bs[i];
    }
  }

  lemma {:induction false} BuiltSnapshots(w: World, bs: seq<Option<string>>, m: Moment)
    ensures |Built(w, bs, m)| == |bs|
    ensures forall i :: 0 <= i < |bs| ==>
              Built(w, bs, m)[i].snapshot == if Truthy(bs[i]) then UserDataAt(w, bs[i].value, At(m, i)) else Blank
    decreases |bs|
  {
    if bs != [] {
      var n := |bs| - 1;
      BuiltSnapshots(w, bs[..n], m);
      assert forall i :: 0 <= i < n ==> bs[..n][i] == bs[i];
    }
  }

  // ---------------------------------------------------------------------------
  // The per-account actions

  /** Every event is a request made with token `b`. */
  predicate CallsFor(es: seq<Event>, b: string) {
    forall k :: 0 <= k < |es| ==> es[k].Call? && !es[k].req.Auth? && es[k].req.bearer == b
  }

  lemma CallsForAppend(a: seq<Event>, c: seq<Event>, b: string)
    requires CallsFor(a, b) && CallsFor(c, b)
    ensures CallsFor(a + c, b)
  {
    forall k | 0 <= k < |a + c|
      ensures (a + c)[k].Call? && !(a + c)[k].req.Auth? && (a + c)[k].req.bearer == b
    {
      if k >= |a| {
        assert (a + c)[k] == c[k - |a|];
      }
    }
  }

  /** Starting one automatic task and, when the start did not throw, claiming it
      (index.js:226-228). */
  function TaskRun(w: World, b: string, id: string, m: Moment): seq<Event> {
    if w.startTask(m, b, id).Ok? then [Call(TaskStart(b, id)), Call(TaskClaim(b, id))]
    else [Call(TaskStart(b, id))]
  }

  /** The report line of one automatic task (index.js:229-240). */
  function TaskReport(w: World, b: string, id: string, m: Moment): Kind {
    AutoTaskVerdict(StartTaskAction(w.startTask(m, b, id)), ClaimTaskAction(w.claimTask(m, b, id)))
  }

  /** The runs of the tasks, in order: the i-th task is the i-th step of the loop run at `m`. */
  function TaskRuns(w: World, b: string, ts: seq<Tasks.Task>, m: Moment): seq<Event>
    decreases |ts|
  {
    if ts == [] then []
    else
      var n := |ts| - 1;
      TaskRuns(w, b, ts[..n], m) + TaskRun(w, b, ts[n].id, At(m, n))
  }

  /** autoCompleteTasksAction (index.js:194-257): list the tasks, and when there are
      automatic ones, run each and then read the balance. */
  function AutoTasksEvents(w: World, b: string, m: Moment): seq<Event> {
    var listed := w.tasks(m, b);
    [Call(TaskList(b))] +
      if !listed.Ok? || Tasks.AutoTasks(listed.value) == [] then []
      else TaskRuns(w, b, Tasks.AutoTasks(listed.value), m) + [Call(UserBalance(b))]
  }

  /** The ids of the tasks, in order. */
  function TaskIds(ts: seq<Tasks.Task>): (r: seq<string>)
    ensures |r| == |ts|
    decreases |ts|
  {
    if ts == [] then [] else TaskIds(ts[..|ts| - 1]) + [ts[|ts| - 1].id]
  }

  /** The ids of the tasks started by the events, in order. */
  function StartsOf(es: seq<Event>): seq<string>
    decreases |es|
  {
    if es == [] then []
    else
      var e := es[|es| - 1];
      StartsOf(es[..|es| - 1]) + (if e.Call? && e.req.TaskStart? then [e.req.taskId] else [])
  }

  lemma {:induction false} StartsOfAppend(a: seq<Event>, c: seq<Event>)
    ensures StartsOf(a + c) == StartsOf(a) + StartsOf(c)
    decreases |c|
  {
    if c == [] {
      assert a + c == a;
    } else {
      var n := |c| - 1;
      assert (a + c)[..|a + c| - 1] == a + c[..n];
      StartsOfAppend(a, c[..n]);
    }
  }

  lemma StartsOfOne(e: Event)
    ensures StartsOf([e]) == if e.Call? && e.req.TaskStart? then [e.req.taskId] else []
  {
    assert [e][..0] == [];
  }

  /** One run starts exactly its own task. */
  lemma StartsOfRun(w: World, b: string, id: string, m: Moment)
    ensures StartsOf(TaskRun(w, b, id, m)) == [id]
  {
    var run := TaskRun(w, b, id, m);
    StartsOfOne(Call(TaskStart(b, id)));
    if |run| == 2 {
      StartsOfOne(Call(TaskClaim(b, id)));
      StartsOfAppend([Call(TaskStart(b, id))], [Call(TaskClaim(b, id))]);
      assert run == [Call(TaskStart(b, id))] + [Call(TaskClaim(b, id))];
    }
  }

  /** Every collected task is started, in order: a failing task never stops the later ones. */
  lemma {:induction false} EveryTaskStarted(w: World, b: string, ts: seq<Tasks.Task>, m: Moment)
    ensures StartsOf(TaskRuns(w, b, ts, m)) == TaskIds(ts)
    decreases |ts|
  {
    if ts != [] {
      var n := |ts| - 1;
      var prev := TaskRuns(w, b, ts[..n], m);
      var run := TaskRun(w, b, ts[n].id, At(m, n));
      assert TaskRuns(w, b, ts, m) == prev + run;
      EveryTaskStarted(w, b, ts[..n], m);
      StartsOfAppend(prev, run);
      StartsOfRun(w, b, ts[n].id, At(m, n));
    }
  }

  /** Every claim directly follows the start of the same task. */
  predicate ClaimsFollowStarts(es: seq<Event>, b: string) {
    forall k :: 0 <= k < |es| && es[k].Call? && es[k].req.TaskClaim? ==>
      0 < k && es[k - 1] == Call(TaskStart(b, es[k].req.taskId))
  }

  /** The automatic-task runs use `b` only and claim a task only right after starting it. */
  lemma {:induction false} ClaimFollowsStart(w: World, b: string, ts: seq<Tasks.Task>, m: Moment)
    ensures CallsFor(TaskRuns(w, b, ts, m), b)
    ensures ClaimsFollowStarts(TaskRuns(w, b, ts, m), b)
    decreases |ts|
  {
    if ts != [] {
      var n := |ts| - 1;
      var prev := TaskRuns(w, b, ts[..n], m);
      var run := TaskRun(w, b, ts[n].id, At(m, n));
      var es := prev + run;
      assert TaskRuns(w, b, ts, m) == es;
      ClaimFollowsStart(w, b, ts[..n], m);
      CallsForAppend(prev, run, b);
      forall k | 0 <= k < |es| && es[k].Call? && es[k].req.TaskClaim?
        ensures 0 < k && es[k - 1] == Call(TaskStart(b, es[k].req.taskId))
      {
        if k < |prev| {
          assert es[k] == prev[k] && es[k - 1] == prev[k - 1];
        } else {
          assert es[k] == run[k - |prev|];
          assert k - |prev| == 1 && es[k - 1] == run[0];
        }
      }
    }
  }

  /** No automatic task, or a task list that could not be fetched, means no start, claim or
      balance request. */
  lemma NoAutoTasksNoCalls(w: World, b: string, m: Moment)
    requires !w.tasks(m, b).Ok? || Tasks.AutoTasks(w.tasks(m, b).value) == []
    ensures AutoTasksEvents(w, b, m) == [Call(TaskList(b))]
  {
  }

  /** Listing, running the tasks, reading the balance: every task is started, in order,
      and the balance read comes last. */
  lemma {:induction false} RunsThenBalance(w: World, b: string, ts: seq<Tasks.Task>, m: Moment)
    requires ts != []
    ensures var es := [Call(TaskList(b))] + TaskRuns(w, b, ts, m) + [Call(UserBalance(b))];
            |es| >= 3 && StartsOf(es) == TaskIds(ts)
  {
    var runs := TaskRuns(w, b, ts, m);
    var head, tail := [Call(TaskList(b))], [Call(UserBalance(b))];
    TaskRunsNonEmpty(w, b, ts, m);
    EveryTaskStarted(w, b, ts, m);
    StartsOfAppend(head, runs);
    StartsOfAppend(head + runs, tail);
    StartsOfOne(head[0]);
    StartsOfOne(tail[0]);
    assert StartsOf(head) == [] && StartsOf(tail) == [];
    assert StartsOf(head + runs) == TaskIds(ts);
  }

  lemma TaskRunsNonEmpty(w: World, b: string, ts: seq<Tasks.Task>, m: Moment)
    requires ts != []
    ensures |TaskRuns(w, b, ts, m)| >= 1
  {
    var n := |ts| - 1;
    assert TaskRuns(w, b, ts, m) == TaskRuns(w, b, ts[..n], m) + TaskRun(w, b, ts[n].id, At(m, n));
  }

  /** With automatic tasks, every one is started and the balance is read once, last. */
  lemma BalanceReadLast(w: World, b: string, m: Moment)
    requires w.tasks(m, b).Ok? && Tasks.AutoTasks(w.tasks(m, b).value) != []
    ensures |AutoTasksEvents(w, b, m)| >= 3
    ensures AutoTasksEvents(w, b, m)[0] == Call(TaskList(b))
    ensures AutoTasksEvents(w, b, m)[|AutoTasksEvents(w, b, m)| - 1] == Call(UserBalance(b))
    ensures StartsOf(AutoTasksEvents(w, b, m)) == TaskIds(Tasks.AutoTasks(w.tasks(m, b).value))
  {
    var ts := Tasks.AutoTasks(w.tasks(m, b).value);
    RunsThenBalance(w, b, ts, m);
    assert AutoTasksEvents(w, b, m) == [Call(TaskList(b))] + TaskRuns(w, b, ts, m) + [Call(UserBalance(b))];
  }

  /** claimReferralRewardsOption (index.js:468-484): the claim is made exactly when the
      balance could be read and shows a claimable positive amount. */
  predicate ClaimsReferral(w: World, b: string, m: Moment) {
    var balance := GetFriendBalance(w.friendBalance(m, b));
    balance.Returned? && CanClaimReferral(balance.value)
  }

  function ReferralEvents(w: World, b: string, m: Moment): seq<Event> {
    [Call(FriendBalance(b))] + if ClaimsReferral(w, b, m) then [Call(FriendClaim(b))] else []
  }

  function ReferralKind(w: World, b: string, m: Moment): Kind {
    ReferralVerdict(GetFriendBalance(w.friendBalance(m, b)), ClaimReferralRewards(w.claimReferral(m, b)))
  }

  lemma ReferralClaimIff(w: World, b: string, m: Moment)
    ensures Call(FriendClaim(b)) in ReferralEvents(w, b, m) <==>
              w.friendBalance(m, b).Ok? && w.friendBalance(m, b).value.canClaim &&
              w.friendBalance(m, b).value.amountForClaim > 0
    ensures ReferralKind(w, b, m) == NoReward <==>
              w.friendBalance(m, b).Ok? && !CanClaimReferral(w.friendBalance(m, b).value)
  {
  }

  /** The actions an account loop can run. */
  datatype Action = CheckInAll | ClaimFarmAll | StartFarmAll | AutoTasksAll | ReferralAll

  /** The request every run of the action begins with. */
  function FirstRequest(a: Action, b: string): Request {
    match a
    case CheckInAll => CheckIn(b)
    case ClaimFarmAll => FarmClaim(b)
    case StartFarmAll => FarmStart(b)
    case AutoTasksAll => TaskList(b)
    case ReferralAll => FriendBalance(b)
  }

  function ActionEvents(w: World, a: Action, b: string, m: Moment): seq<Event> {
    match a
    case CheckInAll => [Call(CheckIn(b))]
    case ClaimFarmAll => [Call(FarmClaim(b))]
    case StartFarmAll => [Call(FarmStart(b))]
    case AutoTasksAll => AutoTasksEvents(w, b, m)
    case ReferralAll => ReferralEvents(w, b, m)
  }

  /** An action for one account begins with its first request and makes requests with that
      account's token only; the farming and check-in actions make exactly one. */
  lemma ActionCallsFor(w: World, a: Action, b: string, m: Moment)
    ensures CallsFor(ActionEvents(w, a, b, m), b)
    ensures |ActionEvents(w, a, b, m)| >= 1 && ActionEvents(w, a, b, m)[0] == Call(FirstRequest(a, b))
    ensures a.CheckInAll? || a.ClaimFarmAll? || a.StartFarmAll? ==> ActionEvents(w, a, b, m) == [Call(FirstRequest(a, b))]
  {
    if a.AutoTasksAll? {
      var listed := w.tasks(m, b);
      if listed.Ok? && Tasks.AutoTasks(listed.value) != [] {
        var runs := TaskRuns(w, b, Tasks.AutoTasks(listed.value), m);
        ClaimFollowsStart(w, b, Tasks.AutoTasks(listed.value), m);
        CallsForAppend([Call(TaskList(b))], runs, b);
        CallsForAppend([Call(TaskList(b))] + runs, [Call(UserBalance(b))], b);
        assert AutoTasksEvents(w, b, m) == [Call(TaskList(b))] + runs + [Call(UserBalance(b))];
      }
    }
  }

  // ---------------------------------------------------------------------------
  // The account loops (index.js:489-532, AutoIndex.js:231-276)

  /** One account of the loop: a falsy token is skipped; a processed account is followed
      by a pause. */
  function Visit(w: World, a: Action, account: Account, m: Moment): seq<Event> {
    if Truthy(account.bearer) then ActionEvents(w, a, account.bearer.value, m) + [Sleep(AuthPause)] else []
  }

  /** The account loop run at `m`: the i-th account is its i-th step. */
  function Sweep(w: World, a: Action, accounts: seq<Account>, m: Moment): seq<Event>
    decreases |accounts|
  {
    if accounts == [] then []
    else
      var n := |accounts| - 1;
      Sweep(w, a, accounts[..n], m) + Visit(w, a, accounts[n], At(m, n))
  }

  /** The truthy tokens of the accounts, in account order. */
  function TruthyBearers(accounts: seq<Account>): (r: seq<string>)
    ensures forall x :: x in r ==> x != ""
    decreases |accounts|
  {
    if accounts == [] then []
    else
      var n := |accounts| - 1;
      TruthyBearers(accounts[..n]) + (if Truthy(accounts[n].bearer) then [accounts[n].bearer.value] else [])
  }

  /** A token is listed exactly when some account holds it and it is truthy. */
  lemma {:induction false} TruthyBearersIff(accounts: seq<Account>, x: string)
    ensures x in TruthyBearers(accounts) <==>
              x != "" && exists i :: 0 <= i < |accounts| && accounts[i].bearer == Some(x)
    decreases |accounts|
  {
    if accounts != [] {
      var n := |accounts| - 1;
      var prev := accounts[..n];
      TruthyBearersIff(prev, x);
      if x != "" && accounts[n].bearer != Some(x) && exists i :: 0 <= i < |accounts| && accounts[i].bearer == Some(x) {
        var i :| 0 <= i < |accounts| && accounts[i].bearer == Some(x);
        assert prev[i] == accounts[i];
      }
      if x in TruthyBearers(prev) {
        var i :| 0 <= i < |prev| && prev[i].bearer == Some(x);
        assert accounts[i] == prev[i];
      }
    }
  }

  /** The one-request action over a list of tokens: its request, then the pause, for each. */
  function PacedCalls(a: Action, bs: seq<string>): seq<Event>
    decreases |bs|
  {
    if bs == [] then []
    else
      var n := |bs| - 1;
      PacedCalls(a, bs[..n]) + [Call(FirstRequest(a, bs[n])), Sleep(AuthPause)]
  }

  lemma PacedCallsNext(a: Action, bs: seq<string>, b: string)
    ensures PacedCalls(a, bs + [b]) == PacedCalls(a, bs) + [Call(FirstRequest(a, b)), Sleep(AuthPause)]
  {
    var s := bs + [b];
    assert s[..|s| - 1] == bs && s[|s| - 1] == b;
  }

  /** For check-in and the farming actions, the loop is the action's request and a pause for
      each truthy token, in account order, and nothing for the others. */
  lemma {:induction false} SweepSkipsFalsy(w: World, a: Action, accounts: seq<Account>, m: Moment)
    requires a.CheckInAll? || a.ClaimFarmAll? || a.StartFarmAll?
    ensures Sweep(w, a, accounts, m) == PacedCalls(a, TruthyBearers(accounts))
    decreases |accounts|
  {
    if accounts != [] {
      var n := |accounts| - 1;
      var prev := TruthyBearers(accounts[..n]);
      SweepSkipsFalsy(w, a, accounts[..n], m);
      assert Sweep(w, a, accounts, m) == PacedCalls(a, prev) + Visit(w, a, accounts[n], At(m, n));
      if Truthy(accounts[n].bearer) {
        var b := accounts[n].bearer.value;
        assert TruthyBearers(accounts) == prev + [b];
        ActionCallsFor(w, a, b, At(m, n));
        PacedCallsNext(a, prev, b);
      } else {
        assert TruthyBearers(accounts) == prev + [] == prev;
        assert Visit(w, a, accounts[n], At(m, n)) == [];
        assert PacedCalls(a, prev) + [] == PacedCalls(a, prev);
      }
    }
  }

  /** Some account holds the token `b`. */
  predicate HeldBy(accounts: seq<Account>, b: string) {
    exists i :: 0 <= i < |accounts| && accounts[i].bearer == Some(b)
  }

  /** A token held in the leading accounts is held in the table. */
  lemma HeldByPrefix(accounts: seq<Account>, n: nat, b: string)
    requires n <= |accounts| && HeldBy(accounts[..n], b)
    ensures HeldBy(accounts, b)
  {
    var i :| 0 <= i < n && accounts[..n][i].bearer == Some(b);
    assert accounts[i] == accounts[..n][i];
  }

  /** Every request is made with a truthy token that one of the accounts holds. */
  predicate CallsToHolders(es: seq<Event>, accounts: seq<Account>) {
    forall k :: 0 <= k < |es| && es[k].Call? ==>
      !es[k].req.Auth? && es[k].req.bearer != "" && HeldBy(accounts, es[k].req.bearer)
  }

  /** One visit: requests with the account's own truthy token only. */
  lemma VisitCalls(w: World, a: Action, account: Account, m: Moment)
    ensures forall k :: 0 <= k < |Visit(w, a, account, m)| && Visit(w, a, account, m)[k].Call? ==>
              Truthy(account.bearer) && !Visit(w, a, account, m)[k].req.Auth? &&
              Visit(w, a, account, m)[k].req.bearer == account.bearer.value
  {
    if Truthy(account.bearer) {
      var b := account.bearer.value;
      var acts := ActionEvents(w, a, b, m);
      ActionCallsFor(w, a, b, m);
      var v := acts + [Sleep(AuthPause)];
      forall k | 0 <= k < |v| && v[k].Call?
        ensures !v[k].req.Auth? && v[k].req.bearer == b
      {
        assert k < |acts| && v[k] == acts[k];
      }
    }
  }

  /** One visit pauses once when the token is truthy, never otherwise. */
  lemma VisitPauses(w: World, a: Action, account: Account, m: Moment)
    ensures Count(Visit(w, a, account, m), Sleep(AuthPause)) == if Truthy(account.bearer) then 1 else 0
  {
    if Truthy(account.bearer) {
      var b := account.bearer.value;
      var acts := ActionEvents(w, a, b, m);
      ActionCallsFor(w, a, b, m);
      assert Sleep(AuthPause) !in acts by {
        forall k | 0 <= k < |acts|
          ensures acts[k] != Sleep(AuthPause)
        {
          assert acts[k].Call?;
        }
      }
      CountAppend(acts, [Sleep(AuthPause)], Sleep(AuthPause));
      assert [Sleep(AuthPause)][..0] == [];
    }
  }

  /** A falsy token never receives a request: every request goes to a truthy token that one
      of the accounts holds. */
  lemma {:induction false} FalsyNeverCalled(w: World, a: Action, accounts: seq<Account>, m: Moment)
    ensures CallsToHolders(Sweep(w, a, accounts, m), accounts)
    decreases |accounts|
  {
    if accounts != [] {
      var n := |accounts| - 1;
      var prev := Sweep(w, a, accounts[..n], m);
      var visit := Visit(w, a, accounts[n], At(m, n));
      var es := prev + visit;
      assert Sweep(w, a, accounts, m) == es;
      FalsyNeverCalled(w, a, accounts[..n], m);
      VisitCalls(w, a, accounts[n], At(m, n));
      forall k | 0 <= k < |es| && es[k].Call?
        ensures !es[k].req.Auth? && es[k].req.bearer != "" && HeldBy(accounts, es[k].req.bearer)
      {
        if k < |prev| {
          assert es[k] == prev[k];
          HeldByPrefix(accounts, n, prev[k].req.bearer);
        } else {
          var j := k - |prev|;
          assert es[k] == visit[j];
          assert Truthy(accounts[n].bearer) && accounts[n].bearer == Some(es[k].req.bearer);
        }
      }
    }
  }

  /** One pause per processed account: as many as there are truthy tokens. */
  lemma {:induction false} PausePerTruthyToken(w: World, a: Action, accounts: seq<Account>, m: Moment)
    ensures Count(Sweep(w, a, accounts, m), Sleep(AuthPause)) == |TruthyBearers(accounts)|
    decreases |accounts|
  {
    if accounts != [] {
      var n := |accounts| - 1;
      var prev := Sweep(w, a, accounts[..n], m);
      var visit := Visit(w, a, accounts[n], At(m, n));
      assert Sweep(w, a, accounts, m) == prev + visit;
      PausePerTruthyToken(w, a, accounts[..n], m);
      VisitPauses(w, a, accounts[n], At(m, n));
      CountAppend(prev, visit, Sleep(AuthPause));
    }
  }
}
