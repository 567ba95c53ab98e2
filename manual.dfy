/**
 * completeManualTasksAction (index.js:259-466): the keyword tasks of the first account's
 * list are worked through one by one. For each, every account's status is queried; unless
 * all accounts have finished it, the user is asked for the keyword; a non-blank keyword
 * drives every account through its state machine.
 *
 * A round run at `m` makes its status queries under `At(m, 0)`, asks for the keyword at `m`
 * and runs the accounts under `At(m, 1)`.
 */
module Manual {
  import opened Apis
  import opened Remote
  import opened Plan
  import opened Strings
  import Tasks

  /** The status an account works with: from its list, or `UNKNOWN` when the list request
      throws (index.js:296-326). */
  function StatusFrom(o: Outcome<seq<Tasks.Section>>, id: string): string {
    if o.Ok? then Tasks.StatusOf(o.value, id) else Tasks.Unknown
  }

  /** The status queries: for every account, `getUserData` then `getTasks`. */
  function QueryEvents(bs: seq<string>): seq<Event>
    decreases |bs|
  {
    if bs == [] then []
    else
      var n := |bs| - 1;
      QueryEvents(bs[..n]) + (UserDataEvents(bs[n]) + [Call(TaskList(bs[n]))])
  }

  /** The statuses the queries run at `q` find, in account order: the j-th account is
      queried at the j-th step. */
  function Statuses(w: World, bs: seq<string>, id: string, q: Moment): seq<string>
    decreases |bs|
  {
    if bs == [] then []
    else
      var n := |bs| - 1;
      Statuses(w, bs[..n], id, q) + [StatusFrom(w.tasks(At(q, n), bs[n]), id)]
  }

  /** `taskStatuses.every(s => s.status === 'FINISHED')`. */
  predicate AllFinished(sts: seq<string>) {
    forall j :: 0 <= j < |sts| ==> sts[j] == Tasks.Finished
  }

  /** The re-fetched list shows the task ready to be claimed. */
  predicate ReadyAfterRefetch(w: World, b: string, id: string, m: Moment) {
    w.tasks(m, b).Ok? && Tasks.StatusOf(w.tasks(m, b).value, id) == Tasks.ReadyForClaim
  }

  /** `validateTaskAction` returned true: the answer is a 2xx with status READY_FOR_CLAIM. */
  predicate Validated(w: World, b: string, id: string, keyword: string, m: Moment) {
    w.validate(m, b, id, keyword).Ok? && w.validate(m, b, id, keyword).value.status == Tasks.ReadyForClaim
  }

  /** Validate; when validation returned true, re-fetch the list; when the task is then
      ready for claim, claim it. A throwing re-fetch ends the attempt (index.js:346-390). */
  function Verify(w: World, b: string, id: string, keyword: string, m: Moment): seq<Event> {
    [Call(TaskValidate(b, id, keyword))] +
      if Validated(w, b, id, keyword, m) then
        [Call(TaskList(b))] + (if ReadyAfterRefetch(w, b, id, m) then [Call(TaskClaim(b, id))] else [])
      else []
  }

  /** One account's state machine for the task (index.js:343-457). */
  function AccountStep(w: World, b: string, id: string, status: string, keyword: string, m: Moment): seq<Event> {
    if status == Tasks.ReadyForVerify then Verify(w, b, id, keyword, m)
    else if status == Tasks.NotStarted then
      [Call(TaskStart(b, id))] + if w.startTask(m, b, id).Ok? then Verify(w, b, id, keyword, m) else []
    else []
  }

  /** Every account's state machine, in account order: the j-th is the j-th step. */
  function Steps(w: World, bs: seq<string>, sts: seq<string>, id: string, keyword: string, m: Moment): seq<Event>
    requires |sts| == |bs|
    decreases |bs|
  {
    if bs == [] then []
    else
      var n := |bs| - 1;
      Steps(w, bs[..n], sts[..n], id, keyword, m) + AccountStep(w, bs[n], id, sts[n], keyword, At(m, n))
  }

  /** One keyword task: query every account, then ask for the keyword unless all have
      finished. */
  function Round(w: World, bs: seq<string>, task: Tasks.Task, m: Moment): seq<Event> {
    var sts := Statuses(w, bs, task.id, At(m, 0));
    StatusesAt(w, bs, task.id, At(m, 0));
    QueryEvents(bs) + if AllFinished(sts) then [] else Asked(w, bs, sts, task, m)
  }

  /** Ask for the keyword, then run the accounts unless the trimmed answer is empty. */
  function Asked(w: World, bs: seq<string>, sts: seq<string>, task: Tasks.Task, m: Moment): seq<Event>
    requires |sts| == |bs|
  {
    var answer := w.keyboard(m);
    [Prompt(Keyword(task.title), answer)] +
      if Trim(answer) == [] then [] else Steps(w, bs, sts, task.id, Trim(answer), At(m, 1))
  }

  /** The rounds of the keyword tasks, in order: the j-th task is the j-th step. */
  function Rounds(w: World, bs: seq<string>, ts: seq<Tasks.Task>, m: Moment): seq<Event>
    decreases |ts|
  {
    if ts == [] then []
    else
      var n := |ts| - 1;
      Rounds(w, bs, ts[..n], m) + Round(w, bs, ts[n], At(m, n))
  }

  /** The whole action, for a non-empty list of tokens: the keyword tasks come from the first
      token's list only. */
  function ManualEvents(w: World, bs: seq<string>, m: Moment): seq<Event>
    requires bs != []
  {
    [Call(TaskList(bs[0]))] +
      if w.tasks(m, bs[0]).Ok? then Rounds(w, bs, Tasks.KeywordTasks(w.tasks(m, bs[0]).value), m) else []
  }

  // ---------------------------------------------------------------------------

  /** Five events per account, the list request last. */
  lemma {:induction false} QueryEventsShape(bs: seq<string>)
    ensures |QueryEvents(bs)| == 5 * |bs|
    ensures forall j :: 0 <= j < |bs| ==> QueryEvents(bs)[5 * j + 4] == Call(TaskList(bs[j]))
    decreases |bs|
  {
    if bs != [] {
      var n := |bs| - 1;
      QueryEventsShape(bs[..n]);
      assert QueryEvents(bs) == QueryEvents(bs[..n]) + (UserDataEvents(bs[n]) + [Call(TaskList(bs[n]))]);
    }
  }

  /** The j-th status is what the j-th account's list request reports, `UNKNOWN` when it
      throws. */
  lemma {:induction false} StatusesAt(w: World, bs: seq<string>, id: string, q: Moment)
    ensures |Statuses(w, bs, id, q)| == |bs|
    ensures forall j :: 0 <= j < |bs| ==> Statuses(w, bs, id, q)[j] == StatusFrom(w.tasks(At(q, j), bs[j]), id)
    decreases |bs|
  {
    if bs != [] {
      var n := |bs| - 1;
      var prev := bs[..n];
      StatusesAt(w, prev, id, q);
      assert Statuses(w, bs, id, q) == Statuses(w, prev, id, q) + [StatusFrom(w.tasks(At(q, n), bs[n]), id)];
      forall j | 0 <= j < n
        ensures Statuses(w, bs, id, q)[j] == StatusFrom(w.tasks(At(q, j), bs[j]), id)
      {
        assert bs[j] == prev[j];
      }
    }
  }

  /** No request changes a task. */
  predicate NoTaskMutation(es: seq<Event>) {
    forall k :: 0 <= k < |es| && es[k].Call? ==> !IsTaskMutation(es[k].req)
  }

  /** No question is asked. */
  predicate NoPrompt(es: seq<Event>) {
    forall k :: 0 <= k < |es| ==> !es[k].Prompt?
  }

  lemma {:induction false} QueriesChangeNothing(bs: seq<string>)
    ensures NoTaskMutation(QueryEvents(bs)) && NoPrompt(QueryEvents(bs))
    decreases |bs|
  {
    if bs != [] {
      var n := |bs| - 1;
      var prev := QueryEvents(bs[..n]);
      var last := UserDataEvents(bs[n]) + [Call(TaskList(bs[n]))];
      QueriesChangeNothing(bs[..n]);
      var es: seq<Event> := prev + last;
      assert QueryEvents(bs) == es;
      forall k | 0 <= k < |es|
        ensures !es[k].Prompt? && (es[k].Call? ==> !IsTaskMutation(es[k].req))
      {
        if k < |prev| {
          assert es[k] == prev[k];
        } else {
          assert es[k] == last[k - |prev|];
        }
      }
    }
  }

  /** When every account has finished the task, nothing is asked and nothing is changed. */
  lemma AllFinishedAsksNothing(w: World, bs: seq<string>, task: Tasks.Task, m: Moment)
    requires AllFinished(Statuses(w, bs, task.id, At(m, 0)))
    ensures Round(w, bs, task, m) == QueryEvents(bs)
    ensures NoTaskMutation(Round(w, bs, task, m)) && NoPrompt(Round(w, bs, task, m))
  {
    QueriesChangeNothing(bs);
    assert Round(w, bs, task, m) == QueryEvents(bs) + [];
  }

  /** When some account has not finished the task, the keyword is asked after the queries. */
  lemma UnfinishedAsks(w: World, bs: seq<string>, task: Tasks.Task, m: Moment)
    requires !AllFinished(Statuses(w, bs, task.id, At(m, 0)))
    ensures |Statuses(w, bs, task.id, At(m, 0))| == |bs|
    ensures Round(w, bs, task, m) == QueryEvents(bs) + Asked(w, bs, Statuses(w, bs, task.id, At(m, 0)), task, m)
  {
    StatusesAt(w, bs, task.id, At(m, 0));
  }

  /** A blank keyword changes nothing: the question is the only event after the queries. */
  lemma BlankKeywordChangesNothing(w: World, bs: seq<string>, sts: seq<string>, task: Tasks.Task, m: Moment)
    requires |sts| == |bs|
    requires Trim(w.keyboard(m)) == []
    ensures Asked(w, bs, sts, task, m) == [Prompt(Keyword(task.title), w.keyboard(m))]
  {
    assert Asked(w, bs, sts, task, m) == [Prompt(Keyword(task.title), w.keyboard(m))] + [];
  }

  lemma AskingChangesNothing(q: seq<Event>, p: Event)
    requires NoTaskMutation(q) && p.Prompt?
    ensures NoTaskMutation(q + [p])
  {
    var es := q + [p];
    forall k | 0 <= k < |es| && es[k].Call?
      ensures !IsTaskMutation(es[k].req)
    {
      assert es[k] == q[k];
    }
  }

  /** No task is changed in a round whose keyword is blank. */
  lemma BlankRoundChangesNothing(w: World, bs: seq<string>, task: Tasks.Task, m: Moment)
    requires Trim(w.keyboard(m)) == []
    ensures NoTaskMutation(Round(w, bs, task, m))
  {
    var sts := Statuses(w, bs, task.id, At(m, 0));
    StatusesAt(w, bs, task.id, At(m, 0));
    QueriesChangeNothing(bs);
    if AllFinished(sts) {
      AllFinishedAsksNothing(w, bs, task, m);
    } else {
      var p := Prompt(Keyword(task.title), w.keyboard(m));
      BlankKeywordChangesNothing(w, bs, sts, task, m);
      AskingChangesNothing(QueryEvents(bs), p);
      assert Round(w, bs, task, m) == QueryEvents(bs) + [p];
    }
  }

  /** A start that throws ends the account's attempt: no validation. */
  lemma StartThrownStops(w: World, b: string, id: string, keyword: string, m: Moment)
    requires StartTaskAction(w.startTask(m, b, id)).Thrown?
    ensures AccountStep(w, b, id, Tasks.NotStarted, keyword, m) == [Call(TaskStart(b, id))]
  {
  }

  /** A start that returns, even `false`, goes on to validation. */
  lemma StartReturnedValidates(w: World, b: string, id: string, keyword: string, m: Moment)
    requires StartTaskAction(w.startTask(m, b, id)).Returned?
    ensures var es := AccountStep(w, b, id, Tasks.NotStarted, keyword, m);
            |es| >= 2 && es[0] == Call(TaskStart(b, id)) && es[1] == Call(TaskValidate(b, id, keyword))
  {
  }

  /** Finished accounts and accounts in any status other than ready-for-verify and
      not-started get no request. */
  lemma OtherStatusNoCalls(w: World, b: string, id: string, status: string, keyword: string, m: Moment)
    requires status != Tasks.ReadyForVerify && status != Tasks.NotStarted
    ensures AccountStep(w, b, id, status, keyword, m) == []
  {
  }

  /** The claim of `Verify` happens exactly when validation returned true and the re-fetched
      list shows the task ready for claim. */
  lemma VerifyClaimIff(w: World, b: string, id: string, keyword: string, m: Moment)
    ensures Call(TaskClaim(b, id)) in Verify(w, b, id, keyword, m) <==>
              ValidateTaskAction(w.validate(m, b, id, keyword)) == Returned(true) &&
              ReadyAfterRefetch(w, b, id, m)
  {
    var es := Verify(w, b, id, keyword, m);
    if Call(TaskClaim(b, id)) in es {
      var k :| 0 <= k < |es| && es[k] == Call(TaskClaim(b, id));
      assert k != 0;
    }
  }

  /** An account's task is claimed exactly when it is ready for verify, or not started with a
      start that returned, and then validation returned true and the re-fetch shows it ready. */
  lemma ClaimIff(w: World, b: string, id: string, status: string, keyword: string, m: Moment)
    ensures Call(TaskClaim(b, id)) in AccountStep(w, b, id, status, keyword, m) <==>
              (status == Tasks.ReadyForVerify || (status == Tasks.NotStarted && StartTaskAction(w.startTask(m, b, id)).Returned?)) &&
              ValidateTaskAction(w.validate(m, b, id, keyword)) == Returned(true) &&
              ReadyAfterRefetch(w, b, id, m)
  {
    var v := Verify(w, b, id, keyword, m);
    VerifyClaimIff(w, b, id, keyword, m);
    if status == Tasks.NotStarted && w.startTask(m, b, id).Ok? {
      var es := AccountStep(w, b, id, status, keyword, m);
      assert es == [Call(TaskStart(b, id))] + v;
      assert Call(TaskClaim(b, id)) in es <==> Call(TaskClaim(b, id)) in v;
    }
  }

  /** Every request of an account's state machine is made with that account's token. */
  lemma AccountStepCallsFor(w: World, b: string, id: string, status: string, keyword: string, m: Moment)
    ensures CallsFor(AccountStep(w, b, id, status, keyword, m), b)
  {
    var v := Verify(w, b, id, keyword, m);
    assert CallsFor(v, b);
    if status == Tasks.NotStarted && w.startTask(m, b, id).Ok? {
      CallsForAppend([Call(TaskStart(b, id))], v, b);
    }
  }

  /** Every request of the accounts' pass is made with the token of an account whose status
      is ready-for-verify or not-started. */
  predicate CallsOnlyActive(es: seq<Event>, bs: seq<string>, sts: seq<string>)
    requires |sts| == |bs|
  {
    forall k :: 0 <= k < |es| && es[k].Call? ==>
      !es[k].req.Auth? &&
      exists j :: 0 <= j < |bs| && bs[j] == es[k].req.bearer &&
                  (sts[j] == Tasks.ReadyForVerify || sts[j] == Tasks.NotStarted)
  }

  lemma {:induction false} StepsCallOnlyActive(w: World, bs: seq<string>, sts: seq<string>, id: string,
                                               keyword: string, m: Moment)
    requires |sts| == |bs|
    ensures CallsOnlyActive(Steps(w, bs, sts, id, keyword, m), bs, sts)
    decreases |bs|
  {
    if bs != [] {
      var n := |bs| - 1;
      var prev := Steps(w, bs[..n], sts[..n], id, keyword, m);
      var step := AccountStep(w, bs[n], id, sts[n], keyword, At(m, n));
      var es := prev + step;
      assert Steps(w, bs, sts, id, keyword, m) == es;
      StepsCallOnlyActive(w, bs[..n], sts[..n], id, keyword, m);
      AccountStepCallsFor(w, bs[n], id, sts[n], keyword, At(m, n));
      forall k | 0 <= k < |es| && es[k].Call?
        ensures !es[k].req.Auth? &&
                exists j :: 0 <= j < |bs| && bs[j] == es[k].req.bearer &&
                            (sts[j] == Tasks.ReadyForVerify || sts[j] == Tasks.NotStarted)
      {
        if k < |prev| {
          assert es[k] == prev[k];
          var j :| 0 <= j < n && bs[..n][j] == prev[k].req.bearer &&
                   (sts[..n][j] == Tasks.ReadyForVerify || sts[..n][j] == Tasks.NotStarted);
          assert bs[j] == bs[..n][j] && sts[j] == sts[..n][j];
        } else {
          assert es[k] == step[k - |prev|];
          assert step != [];
          assert sts[n] == Tasks.ReadyForVerify || sts[n] == Tasks.NotStarted;
        }
      }
    }
  }
}
