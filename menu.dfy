/**
 * The interactive driver of index.js: one token batch and one build of the account table
 * at start, then a menu loop. Every accepted option runs an action over the accounts, re-reads
 * every account's record, and rotates every account's token.
 */
module MenuDriver {
  import opened Apis
  import opened Remote
  import opened Plan
  import Strings
  import Manual
  import opened Session

  const MenuPause := 300   // before "Press Enter to see main menu again"
  const ExitOption := "8"

  /** The options the main loop hands to executeActionForAll. */
  predicate IsOption(choice: string) {
    choice == "1" || choice == "2" || choice == "3" || choice == "4" ||
    choice == "5" || choice == "6" || choice == "7"
  }

  /** The options that run an account loop, and the action each one runs. */
  function LoopAction(choice: string): (a: Option<Action>)
    ensures a.Some? <==> IsOption(choice) && choice != "5" && choice != "6"
    ensures a == Some(CheckInAll) <==> choice == "1"
    ensures a == Some(ClaimFarmAll) <==> choice == "2"
    ensures a == Some(StartFarmAll) <==> choice == "3"
    ensures a == Some(AutoTasksAll) <==> choice == "4"
    ensures a == Some(ReferralAll) <==> choice == "7"
  {
    if choice == "1" then Some(CheckInAll)
    else if choice == "2" then Some(ClaimFarmAll)
    else if choice == "3" then Some(StartFarmAll)
    else if choice == "4" then Some(AutoTasksAll)
    else if choice == "7" then Some(ReferralAll)
    else None
  }

  // ---------------------------------------------------------------------------
  // The accounts and the token array

  /** The token array and the account table agree: each account holds its token normalised,
      as the build stores it and every rotation keeps it. */
  ghost predicate Synced(bearers: seq<Option<string>>, accounts: seq<Account>) {
    |bearers| == |accounts| &&
    forall i :: 0 <= i < |accounts| ==> accounts[i].bearer == Normalize(bearers[i])
  }

  /** The tokens option 5 passes on: every account token that is not `null`. */
  function NonNullBearers(accounts: seq<Account>): seq<string>
    decreases |accounts|
  {
    if accounts == [] then []
    else
      var n := |accounts| - 1;
      NonNullBearers(accounts[..n]) + (if accounts[n].bearer.Some? then [accounts[n].bearer.value] else [])
  }

  /** When no account holds an empty token, the `null` filter of option 5 keeps exactly the
      truthy tokens, in account order. */
  lemma {:induction false} NonNullIsTruthy(accounts: seq<Account>)
    requires forall i :: 0 <= i < |accounts| ==> accounts[i].bearer != Some("")
    ensures NonNullBearers(accounts) == TruthyBearers(accounts)
    decreases |accounts|
  {
    if accounts != [] {
      var n := |accounts| - 1;
      var prev := accounts[..n];
      assert forall i :: 0 <= i < |prev| ==> prev[i] == accounts[i];
      NonNullIsTruthy(prev);
      assert accounts[n].bearer != Some("");
    }
  }

  /** Synced accounts hold no empty token, so option 5 gets exactly the truthy tokens. */
  lemma SyncedManualBearers(bearers: seq<Option<string>>, accounts: seq<Account>)
    requires Synced(bearers, accounts)
    ensures NonNullBearers(accounts) == TruthyBearers(accounts)
  {
    forall i | 0 <= i < |accounts|
      ensures accounts[i].bearer != Some("")
    {
      assert accounts[i].bearer == Normalize(bearers[i]);
    }
    NonNullIsTruthy(accounts);
  }

  // ---------------------------------------------------------------------------
  // executeActionForAll (index.js:486-538)

  /** The work of an option: an account loop, the manual tasks when some token is not `null`,
      or nothing. */
  function OptionEvents(w: World, choice: string, accounts: seq<Account>, m: Moment): seq<Event> {
    match LoopAction(choice)
    case Some(a) => Sweep(w, a, accounts, m)
    case None =>
      if choice == "5" && NonNullBearers(accounts) != [] then Manual.ManualEvents(w, NonNullBearers(accounts), m)
      else []
  }

  /** An option, then the pause and the "Press Enter" prompt every option ends with. */
  function ExecuteEvents(w: World, choice: string, accounts: seq<Account>, m: Moment): seq<Event> {
    OptionEvents(w, choice, accounts, m) + [Sleep(MenuPause), Prompt(PressEnter, w.keyboard(m))]
  }

  /** Options 1 to 3 make their request once for each truthy token, in account order, each
      followed by the loop's pause; other accounts are skipped. */
  lemma OneRequestOptions(w: World, choice: string, accounts: seq<Account>, m: Moment)
    requires choice == "1" || choice == "2" || choice == "3"
    ensures OptionEvents(w, choice, accounts, m) == PacedCalls(LoopAction(choice).value, TruthyBearers(accounts))
  {
    SweepSkipsFalsy(w, LoopAction(choice).value, accounts, m);
  }

  /** Option 6, and option 5 when every token is `null`, only pause and prompt. */
  lemma IdleOptions(w: World, choice: string, accounts: seq<Account>, m: Moment)
    requires choice == "6" || (choice == "5" && forall i :: 0 <= i < |accounts| ==> accounts[i].bearer.None?)
    ensures ExecuteEvents(w, choice, accounts, m) == [Sleep(MenuPause), Prompt(PressEnter, w.keyboard(m))]
  {
    if choice == "5" {
      NoBearerNoneListed(accounts);
    }
  }

  lemma {:induction false} NoBearerNoneListed(accounts: seq<Account>)
    requires forall i :: 0 <= i < |accounts| ==> accounts[i].bearer.None?
    ensures NonNullBearers(accounts) == []
    decreases |accounts|
  {
    if accounts != [] {
      var n := |accounts| - 1;
      var prev := accounts[..n];
      assert forall i :: 0 <= i < |prev| ==> prev[i] == accounts[i];
      NoBearerNoneListed(prev);
    }
  }

  // ---------------------------------------------------------------------------
  // The refresh after an option (index.js:613-626)

  /** A truthy account re-read at its step; the others as they were. */
  function Reread(w: World, account: Account, m: Moment): Account {
    if Truthy(account.bearer) then Account(UserDataAt(w, account.bearer.value, m), account.bearer) else account
  }

  /** The table after the refresh run at `m`: the i-th account is its i-th step. */
  function Refetched(w: World, accounts: seq<Account>, m: Moment): (r: seq<Account>)
    ensures |r| == |accounts|
    decreases |accounts|
  {
    if accounts == [] then []
    else
      var n := |accounts| - 1;
      Refetched(w, accounts[..n], m) + [Reread(w, accounts[n], At(m, n))]
  }

  /** The requests of the refresh: getUserData for every truthy token. */
  function RefetchEvents(accounts: seq<Account>): seq<Event>
    decreases |accounts|
  {
    if accounts == [] then []
    else
      var n := |accounts| - 1;
      RefetchEvents(accounts[..n]) +
        (if Truthy(accounts[n].bearer) then UserDataEvents(accounts[n].bearer.value) else [])
  }

  /** The refresh keeps every token and every falsy account's record, and replaces the record
      of each truthy account by the one fetched at its step. */
  lemma {:induction false} RefetchedAt(w: World, accounts: seq<Account>, m: Moment)
    ensures forall i :: 0 <= i < |accounts| ==> Refetched(w, accounts, m)[i].bearer == accounts[i].bearer
    ensures forall i :: 0 <= i < |accounts| ==>
              Refetched(w, accounts, m)[i].snapshot ==
                if Truthy(accounts[i].bearer) then UserDataAt(w, accounts[i].bearer.value, At(m, i))
                else accounts[i].snapshot
    decreases |accounts|
  {
    if accounts != [] {
      var n := |accounts| - 1;
      var prev := accounts[..n];
      assert forall i :: 0 <= i < |prev| ==> prev[i] == accounts[i];
      RefetchedAt(w, prev, m);
    }
  }

  // ---------------------------------------------------------------------------
  // The rotation after an option (index.js:628-650)

  /** The token refreshBearer returns at the i-th step of the rotation. */
  function Renewed(w: World, ids: seq<string>, m: Moment, i: nat): Option<string>
    requires i < |ids|
  {
    TokenAt(w, At(m, i), ids[i])
  }

  /** The token array after the first |ids| steps of the rotation: a truthy new token
      replaces the old one. */
  function Rotated(w: World, ids: seq<string>, bs: seq<Option<string>>, m: Moment): (r: seq<Option<string>>)
    requires |ids| <= |bs|
    ensures |r| == |bs|
    decreases |ids|
  {
    if ids == [] then bs
    else
      var n := |ids| - 1;
      var prev := Rotated(w, ids[..n], bs, m);
      var nb := Renewed(w, ids, m, n);
      if Truthy(nb) then prev[n := nb] else prev
  }

  /** The table after the first |ids| steps of the rotation: a renewed account takes the new
      token and the record fetched with it. */
  function RotatedAccounts(w: World, ids: seq<string>, accounts: seq<Account>, m: Moment): (r: seq<Account>)
    requires |ids| <= |accounts|
    ensures |r| == |accounts|
    decreases |ids|
  {
    if ids == [] then accounts
    else
      var n := |ids| - 1;
      var prev := RotatedAccounts(w, ids[..n], accounts, m);
      var nb := Renewed(w, ids, m, n);
      if Truthy(nb) then prev[n := Account(UserDataAt(w, nb.value, At(m, n)), nb)] else prev
  }

  /** The last of the first |ids| steps of a rotation over `total` ids: the token request;
      on success a save of the whole array and a re-read; then a pause unless it is the
      last id. */
  function RotationStep(w: World, ids: seq<string>, bs: seq<Option<string>>, m: Moment, total: nat): seq<Event>
    requires 0 < |ids| <= |bs|
  {
    var n := |ids| - 1;
    var nb := Renewed(w, ids, m, n);
    [Call(Auth(ids[n]))] +
      (if Truthy(nb) then [Save(Rotated(w, ids, bs, m))] + UserDataEvents(nb.value) else []) +
      (if n + 1 < total then [Sleep(AuthPause)] else [])
  }

  function RotationEvents(w: World, ids: seq<string>, bs: seq<Option<string>>, m: Moment, total: nat): seq<Event>
    requires |ids| <= |bs|
    decreases |ids|
  {
    if ids == [] then []
    else
      var n := |ids| - 1;
      RotationEvents(w, ids[..n], bs, m, total) + RotationStep(w, ids, bs, m, total)
  }

  /** A failed or empty refresh keeps the old token; a truthy one replaces it. */
  lemma {:induction false} RotatedAt(w: World, ids: seq<string>, bs: seq<Option<string>>, m: Moment)
    requires |ids| <= |bs|
    ensures forall i :: 0 <= i < |bs| ==>
              Rotated(w, ids, bs, m)[i] ==
                if i < |ids| && Truthy(Renewed(w, ids, m, i)) then Renewed(w, ids, m, i) else bs[i]
    decreases |ids|
  {
    if ids != [] {
      var n := |ids| - 1;
      RotatedAt(w, ids[..n], bs, m);
      forall i | 0 <= i < n
        ensures Renewed(w, ids[..n], m, i) == Renewed(w, ids, m, i)
      {
        assert ids[..n][i] == ids[i];
      }
    }
  }

  /** A renewed account holds the new token and the record fetched with it; the others are
      unchanged. */
  lemma {:induction false} RotatedAccountsAt(w: World, ids: seq<string>, accounts: seq<Account>, m: Moment)
    requires |ids| <= |accounts|
    ensures forall i :: 0 <= i < |accounts| ==>
              RotatedAccounts(w, ids, accounts, m)[i] ==
                if i < |ids| && Truthy(Renewed(w, ids, m, i))
                then Account(UserDataAt(w, Renewed(w, ids, m, i).value, At(m, i)), Renewed(w, ids, m, i))
                else accounts[i]
    decreases |ids|
  {
    if ids != [] {
      var n := |ids| - 1;
      RotatedAccountsAt(w, ids[..n], accounts, m);
      forall i | 0 <= i < n
        ensures Renewed(w, ids[..n], m, i) == Renewed(w, ids, m, i)
      {
        assert ids[..n][i] == ids[i];
      }
    }
  }

  /** The rotation keeps the table in step with the token array. */
  lemma RotationKeepsSynced(w: World, ids: seq<string>, bs: seq<Option<string>>, accounts: seq<Account>, m: Moment)
    requires |ids| <= |bs| && Synced(bs, accounts)
    ensures Synced(Rotated(w, ids, bs, m), RotatedAccounts(w, ids, accounts, m))
  {
    RotatedAt(w, ids, bs, m);
    RotatedAccountsAt(w, ids, accounts, m);
  }

  /** The rotation over all ids pauses |ids| - 1 times, and its last event is no pause. */
  lemma RotationPauses(w: World, ids: seq<string>, bs: seq<Option<string>>, m: Moment)
    requires 0 < |ids| <= |bs|
    ensures Count(RotationEvents(w, ids, bs, m, |ids|), Sleep(AuthPause)) == |ids| - 1
    ensures var es := RotationEvents(w, ids, bs, m, |ids|);
            |es| > 0 && es[|es| - 1] != Sleep(AuthPause)
  {
    PausesUpTo(w, ids, bs, m, |ids|);
    var n := |ids| - 1;
    var nb := Renewed(w, ids, m, n);
    var step := RotationStep(w, ids, bs, m, |ids|);
    assert step == [Call(Auth(ids[n]))] + (if Truthy(nb) then [Save(Rotated(w, ids, bs, m))] + UserDataEvents(nb.value) else []);
    assert step[|step| - 1].Call?;
  }

  /** The events of the first j steps are the start of the events of all steps. */
  lemma {:induction false} RotationPrefix(w: World, ids: seq<string>, bs: seq<Option<string>>, m: Moment, total: nat, j: nat)
    requires |ids| <= |bs| && j <= |ids|
    ensures RotationEvents(w, ids[..j], bs, m, total) <= RotationEvents(w, ids, bs, m, total)
    decreases |ids|
  {
    if j < |ids| {
      var n := |ids| - 1;
      RotationPrefix(w, ids[..n], bs, m, total, j);
      assert ids[..n][..j] == ids[..j];
    } else {
      assert ids[..j] == ids;
    }
  }

  /** Every later id's token request comes right after a pause: the step of ids[k] begins
      at position p, and the event at p - 1 is the pause that ends the step of ids[k - 1]. */
  lemma PauseBeforeNext(w: World, ids: seq<string>, bs: seq<Option<string>>, m: Moment, total: nat, k: nat)
    requires |ids| <= |bs| && |ids| <= total && 0 < k < |ids|
    ensures var es := RotationEvents(w, ids, bs, m, total);
            var p := |RotationEvents(w, ids[..k], bs, m, total)|;
            0 < p < |es| && es[p - 1] == Sleep(AuthPause) && es[p] == Call(Auth(ids[k]))
  {
    var before := RotationEvents(w, ids[..k], bs, m, total);
    var step := RotationStep(w, ids[..k + 1], bs, m, total);
    RotationPrefix(w, ids, bs, m, total, k + 1);
    assert ids[..k + 1][..k] == ids[..k];
    assert ids[..k + 1][k] == ids[k];
    assert RotationEvents(w, ids[..k + 1], bs, m, total) == before + step;
    assert step[0] == Call(Auth(ids[k]));
    var last := RotationStep(w, ids[..k], bs, m, total);
    assert ids[..k][..k - 1] == ids[..k - 1];
    assert before == RotationEvents(w, ids[..k - 1], bs, m, total) + last;
    assert last[|last| - 1] == Sleep(AuthPause);
  }

  lemma {:induction false} PausesUpTo(w: World, ids: seq<string>, bs: seq<Option<string>>, m: Moment, total: nat)
    requires |ids| <= |bs| && |ids| <= total && 0 < total
    ensures Count(RotationEvents(w, ids, bs, m, total), Sleep(AuthPause)) ==
              if |ids| < total then |ids| else total - 1
    decreases |ids|
  {
    if ids != [] {
      var n := |ids| - 1;
      var nb := Renewed(w, ids, m, n);
      PausesUpTo(w, ids[..n], bs, m, total);
      var head := [Call(Auth(ids[n]))] + (if Truthy(nb) then [Save(Rotated(w, ids, bs, m))] + UserDataEvents(nb.value) else []);
      var tail: seq<Event> := if n + 1 < total then [Sleep(AuthPause)] else [];
      assert Count(tail, Sleep(AuthPause)) == if n + 1 < total then 1 else 0 by {
        if n + 1 < total {
          assert tail[..0] == [];
        }
      }
      assert RotationStep(w, ids, bs, m, total) == head + tail;
      assert Sleep(AuthPause) !in head;
      CountAppend(head, tail, Sleep(AuthPause));
      CountAppend(RotationEvents(w, ids[..n], bs, m, total), head + tail, Sleep(AuthPause));
    }
  }

  /** Each successful refresh writes the token file with the array as it stands after it. */
  lemma {:induction false} RenewalSaved(w: World, ids: seq<string>, bs: seq<Option<string>>, m: Moment, total: nat, i: nat)
    requires |ids| <= |bs| && i < |ids| && Truthy(Renewed(w, ids, m, i))
    ensures Save(Rotated(w, ids[..i + 1], bs, m)) in RotationEvents(w, ids, bs, m, total)
    decreases |ids|
  {
    var n := |ids| - 1;
    var prev := RotationEvents(w, ids[..n], bs, m, total);
    var step := RotationStep(w, ids, bs, m, total);
    if i == n {
      assert ids[..i + 1] == ids;
      assert step[1] == Save(Rotated(w, ids, bs, m));
      assert (prev + step)[|prev| + 1] == step[1];
    } else {
      assert ids[..n][i] == ids[i];
      assert ids[..n][..i + 1] == ids[..i + 1];
      RenewalSaved(w, ids[..n], bs, m, total, i);
      assert Save(Rotated(w, ids[..i + 1], bs, m)) in prev + step;
    }
  }

  /** When no refresh succeeds, the rotation changes no token and writes no file. */
  lemma {:induction false} NoRenewalNoSave(w: World, ids: seq<string>, bs: seq<Option<string>>, m: Moment, total: nat)
    requires |ids| <= |bs|
    requires forall i :: 0 <= i < |ids| ==> !Truthy(Renewed(w, ids, m, i))
    ensures Rotated(w, ids, bs, m) == bs
    ensures forall k :: 0 <= k < |RotationEvents(w, ids, bs, m, total)| ==> !RotationEvents(w, ids, bs, m, total)[k].Save?
    decreases |ids|
  {
    if ids != [] {
      var n := |ids| - 1;
      forall i | 0 <= i < n
        ensures !Truthy(Renewed(w, ids[..n], m, i))
      {
        assert ids[..n][i] == ids[i];
        assert !Truthy(Renewed(w, ids, m, i));
      }
      NoRenewalNoSave(w, ids[..n], bs, m, total);
      var prev := RotationEvents(w, ids[..n], bs, m, total);
      var step := RotationStep(w, ids, bs, m, total);
      assert !Truthy(Renewed(w, ids, m, n));
      var all: seq<Event> := prev + step;
      forall k | 0 <= k < |all|
        ensures !all[k].Save?
      {
        if k < |prev| {
          assert all[k] == prev[k];
        } else {
          assert all[k] == step[k - |prev|];
        }
      }
    }
  }

  // ---------------------------------------------------------------------------
  // One pass of the main loop (index.js:598-665)

  /** What the menu loop keeps between passes. */
  datatype Menu = Menu(bearers: seq<Option<string>>, accounts: seq<Account>)

  /** The table and the array have one entry per query id and agree. */
  ghost predicate Fits(ids: seq<string>, s: Menu) {
    |s.bearers| == |ids| && Synced(s.bearers, s.accounts)
  }

  /** The trimmed answer to the menu question asked at `m`. */
  function Choice(w: World, m: Moment): string {
    Strings.Trim(w.keyboard(m))
  }

  /** The state after an accepted option at `m`: the refresh at its step 1, the rotation at
      its step 2. */
  function Handled(w: World, ids: seq<string>, s: Menu, m: Moment): Menu
    requires |s.bearers| == |ids| && |s.accounts| == |ids|
  {
    Menu(Rotated(w, ids, s.bearers, At(m, 2)),
         RotatedAccounts(w, ids, Refetched(w, s.accounts, At(m, 1)), At(m, 2)))
  }

  /** The state after the pass at `m`: unchanged unless the option is accepted. */
  function Passed(w: World, ids: seq<string>, s: Menu, m: Moment): Menu
    requires |s.bearers| == |ids| && |s.accounts| == |ids|
  {
    if IsOption(Choice(w, m)) then Handled(w, ids, s, m) else s
  }

  /** The events of an accepted option at `m`: the option at step 0, the refresh and the
      rotation. */
  function HandledEvents(w: World, ids: seq<string>, s: Menu, choice: string, m: Moment): seq<Event>
    requires |s.bearers| == |ids|
  {
    ExecuteEvents(w, choice, s.accounts, At(m, 0)) + RefetchEvents(s.accounts) +
      RotationEvents(w, ids, s.bearers, At(m, 2), |ids|)
  }

  /** The events of the pass at `m`: the menu question, then the work of an accepted option. */
  function PassEvents(w: World, ids: seq<string>, s: Menu, m: Moment): seq<Event>
    requires |s.bearers| == |ids| && |s.accounts| == |ids|
  {
    [Prompt(MenuChoice, w.keyboard(m))] +
      if IsOption(Choice(w, m)) then HandledEvents(w, ids, s, Choice(w, m), m) else []
  }

  /** Every pass keeps the table and the array in step. */
  lemma PassKeepsFit(w: World, ids: seq<string>, s: Menu, m: Moment)
    requires Fits(ids, s)
    ensures Fits(ids, Passed(w, ids, s, m))
  {
    if IsOption(Choice(w, m)) {
      var re := Refetched(w, s.accounts, At(m, 1));
      RefetchedAt(w, s.accounts, At(m, 1));
      assert Synced(s.bearers, re);
      RotationKeepsSynced(w, ids, s.bearers, re, At(m, 2));
    }
  }

  /** A rejected answer changes nothing and asks again. */
  lemma RejectedChangesNothing(w: World, ids: seq<string>, s: Menu, m: Moment)
    requires |s.bearers| == |ids| && |s.accounts| == |ids|
    requires !IsOption(Choice(w, m))
    ensures Passed(w, ids, s, m) == s
    ensures PassEvents(w, ids, s, m) == [Prompt(MenuChoice, w.keyboard(m))]
  {
  }

  // ---------------------------------------------------------------------------
  // The main loop, for a bounded number of passes

  /** Whether one of the first `n` passes, the r-th asked at `At(m, r)`, was answered "8". */
  function Stopped(w: World, m: Moment, n: nat): bool
    decreases n
  {
    n > 0 && (Stopped(w, m, n - 1) || Choice(w, At(m, n - 1)) == ExitOption)
  }

  /** The loop has stopped after `n` passes exactly when one of them was answered "8". */
  lemma {:induction false} StoppedIff(w: World, m: Moment, n: nat)
    ensures Stopped(w, m, n) <==> exists r :: 0 <= r < n && Choice(w, At(m, r)) == ExitOption
    decreases n
  {
    if n > 0 {
      StoppedIff(w, m, n - 1);
      if Stopped(w, m, n - 1) {
        var r :| 0 <= r < n - 1 && Choice(w, At(m, r)) == ExitOption;
        assert 0 <= r < n && Choice(w, At(m, r)) == ExitOption;
      } else if Choice(w, At(m, n - 1)) == ExitOption {
        assert 0 <= n - 1 < n && Choice(w, At(m, n - 1)) == ExitOption;
      } else {
        forall r | 0 <= r < n
          ensures Choice(w, At(m, r)) != ExitOption
        {
          if r < n - 1 {
            assert !(0 <= r < n - 1 && Choice(w, At(m, r)) == ExitOption);
          }
        }
      }
    }
  }

  datatype Progress = Progress(state: Menu, events: seq<Event>)

  /** The state and the events after the first `n` passes: after "8" nothing more happens. */
  function Passes(w: World, ids: seq<string>, s: Menu, m: Moment, n: nat): (o: Progress)
    requires |s.bearers| == |ids| && |s.accounts| == |ids|
    ensures |o.state.bearers| == |ids| && |o.state.accounts| == |ids|
    decreases n
  {
    if n == 0 then Progress(s, [])
    else
      var p := Passes(w, ids, s, m, n - 1);
      var q := At(m, n - 1);
      if Stopped(w, m, n - 1) then p
      else if Choice(w, q) == ExitOption then Progress(p.state, p.events + [Prompt(MenuChoice, w.keyboard(q))])
      else Progress(Passed(w, ids, p.state, q), p.events + PassEvents(w, ids, p.state, q))
  }

  /** Once the loop has stopped, later passes add nothing. */
  lemma {:induction false} StopIsFinal(w: World, ids: seq<string>, s: Menu, m: Moment, i: nat, n: nat)
    requires |s.bearers| == |ids| && |s.accounts| == |ids|
    requires i <= n && Stopped(w, m, i)
    ensures Stopped(w, m, n) && Passes(w, ids, s, m, n) == Passes(w, ids, s, m, i)
    decreases n - i
  {
    if i < n {
      StopIsFinal(w, ids, s, m, i, n - 1);
    }
  }

  // ---------------------------------------------------------------------------

  class MenuBot {
    const client: Client
    const queryIds: seq<string>
    var bearers: seq<Option<string>>
    var accounts: seq<Account>

    ghost predicate Valid()
      reads this
    {
      Fits(queryIds, Menu(bearers, accounts))
    }

    constructor (c: Client, ids: seq<string>, bs: seq<Option<string>>, accs: seq<Account>)
      requires Fits(ids, Menu(bs, accs))
      ensures client == c && queryIds == ids && bearers == bs && accounts == accs
      ensures Valid()
    {
      client := c;
      queryIds := ids;
      bearers := bs;
      accounts := accs;
    }

    /** The start of the main function (index.js:556-587): no bot when there is no query id
        (the process exits); otherwise the token batch at step 0 and the build at step 1. */
    static method Launch(c: Client, ids: seq<string>, m: Moment) returns (bot: MenuBot?)
      modifies c
      ensures bot == null <==> ids == []
      ensures ids == [] ==> c.trace == old(c.trace)
      ensures bot != null ==>
                fresh(bot) && bot.client == c && bot.queryIds == ids && bot.Valid() &&
                bot.bearers == Batch(c.world, ids, At(m, 0)) &&
                bot.accounts == Built(c.world, bot.bearers, At(m, 1)) &&
                c.trace == old(c.trace) + InitEvents(c.world, ids, At(m, 0)) + BuildEvents(bot.bearers)
    {
      if ids == [] {
        return null;
      }
      ghost var tr0 := c.trace;
      var bs := c.InitializeBearers(ids, At(m, 0));
      var accs := c.BuildAccounts(bs, At(m, 1));
      BatchAt(c.world, ids, At(m, 0));
      BuiltShape(c.world, bs, At(m, 1));
      bot := new MenuBot(c, ids, bs, accs);
    }

    /** The switch of executeActionForAll (index.js:487-535). */
    method RunOption(choice: string, m: Moment)
      modifies client
      ensures client.trace == old(client.trace) + OptionEvents(client.world, choice, accounts, m)
    {
      var action := LoopAction(choice);
      if action.Some? {
        client.ForEachAccount(action.value, accounts, m);
      } else if choice == "5" {
        var bs := NonNullBearers(accounts);
        if bs != [] {
          client.CompleteManualTasks(bs, m);
        }
      }
    }

    /** executeActionForAll (index.js:486-538). */
    method Execute(choice: string, m: Moment)
      modifies client
      ensures client.trace == old(client.trace) + ExecuteEvents(client.world, choice, accounts, m)
    {
      ghost var tr0 := client.trace;
      RunOption(choice, m);
      client.Wait(MenuPause);
      var _ := client.Ask(PressEnter, m);
      Regroup(tr0, OptionEvents(client.world, choice, accounts, m), [Sleep(MenuPause), Prompt(PressEnter, client.world.keyboard(m))]);
    }

    /** The refresh after an option (index.js:613-626). */
    method Refetch(m: Moment)
      requires |queryIds| == |bearers| == |accounts|
      modifies this, client
      ensures bearers == old(bearers) && accounts == Refetched(client.world, old(accounts), m)
      ensures client.trace == old(client.trace) + RefetchEvents(old(accounts))
    {
      ghost var tr0 := client.trace;
      ghost var accs := accounts;
      ghost var w := client.world;
      for i := 0 to |queryIds|
        invariant bearers == old(bearers) && |accounts| == |accs|
        invariant forall j :: 0 <= j < |accs| ==> accounts[j] == if j < i then Reread(w, accs[j], At(m, j)) else accs[j]
        invariant client.trace == tr0 + RefetchEvents(accs[..i])
      {
        ghost var prev := RefetchEvents(accs[..i]);
        assert accs[..i + 1][..i] == accs[..i];
        var bearer := accounts[i].bearer;
        if Truthy(bearer) {
          var snap := client.GetUserData(bearer.value, At(m, i));
          accounts := accounts[i := Account(snap, bearer)];
          Regroup(tr0, prev, UserDataEvents(bearer.value));
        } else {
          assert prev + [] == prev;
        }
      }
      assert accs[..|accs|] == accs;
      RefetchedAt(w, accs, m);
    }

    /** One step of the rotation: a new token for the i-th id; when it is truthy, the array
        and the account take it, the file is written and the account's record is re-read
        with it; a pause unless it is the last id (index.js:629-649). */
    method RotateAt(i: nat, m: Moment, ghost bs: seq<Option<string>>, ghost accs: seq<Account>)
      requires i < |queryIds| == |bs| == |accs|
      requires bearers == Rotated(client.world, queryIds[..i], bs, m)
      requires accounts == RotatedAccounts(client.world, queryIds[..i], accs, m)
      modifies this, client
      ensures bearers == Rotated(client.world, queryIds[..i + 1], bs, m)
      ensures accounts == RotatedAccounts(client.world, queryIds[..i + 1], accs, m)
      ensures client.trace == old(client.trace) + RotationStep(client.world, queryIds[..i + 1], bs, m, |queryIds|)
    {
      ghost var tr0 := client.trace;
      ghost var ids := queryIds[..i + 1];
      assert ids[..i] == queryIds[..i] && ids[i] == queryIds[i];
      var newBearer := client.RefreshBearer(queryIds[i], At(m, i));
      ghost var head := [Call(Auth(queryIds[i]))];
      ghost var mid: seq<Event> := [];
      if Truthy(newBearer) {
        bearers := bearers[i := newBearer];
        accounts := accounts[i := Account(accounts[i].snapshot, newBearer)];
        client.SaveBearers(bearers);
        var snap := client.GetUserData(newBearer.value, At(m, i));
        accounts := accounts[i := Account(snap, newBearer)];
        mid := [Save(bearers)] + UserDataEvents(newBearer.value);
        Regroup(tr0 + head, [Save(bearers)], UserDataEvents(newBearer.value));
      } else {
        assert tr0 + head + mid == tr0 + head;
      }
      ghost var tail: seq<Event> := [];
      if i < |queryIds| - 1 {
        client.Wait(AuthPause);
        tail := [Sleep(AuthPause)];
      } else {
        assert tr0 + head + mid + tail == tr0 + head + mid;
      }
      assert RotationStep(client.world, ids, bs, m, |queryIds|) == head + mid + tail;
      Regroup(tr0, head, mid);
      Regroup(tr0, head + mid, tail);
    }

    /** The token rotation after an option (index.js:628-650). */
    method Rotate(m: Moment)
      requires |queryIds| == |bearers| == |accounts|
      modifies this, client
      ensures bearers == Rotated(client.world, queryIds, old(bearers), m)
      ensures accounts == RotatedAccounts(client.world, queryIds, old(accounts), m)
      ensures client.trace == old(client.trace) + RotationEvents(client.world, queryIds, old(bearers), m, |queryIds|)
    {
      ghost var tr0 := client.trace;
      ghost var bs := bearers;
      ghost var accs := accounts;
      for i := 0 to |queryIds|
        invariant |bearers| == |accounts| == |queryIds|
        invariant bearers == Rotated(client.world, queryIds[..i], bs, m)
        invariant accounts == RotatedAccounts(client.world, queryIds[..i], accs, m)
        invariant client.trace == tr0 + RotationEvents(client.world, queryIds[..i], bs, m, |queryIds|)
      {
        ghost var prev := RotationEvents(client.world, queryIds[..i], bs, m, |queryIds|);
        assert queryIds[..i + 1][..i] == queryIds[..i];
        RotateAt(i, m, bs, accs);
        Regroup(tr0, prev, RotationStep(client.world, queryIds[..i + 1], bs, m, |queryIds|));
      }
      assert queryIds[..|queryIds|] == queryIds;
    }

    /** An accepted option: the option at step 0, the refresh at step 1 and the rotation at
        step 2 (index.js:609-650). */
    method Handle(choice: string, m: Moment)
      requires Valid() && IsOption(choice)
      modifies this, client
      ensures Valid()
      ensures Menu(bearers, accounts) == Handled(client.world, queryIds, Menu(old(bearers), old(accounts)), m)
      ensures client.trace == old(client.trace) + HandledEvents(client.world, queryIds, Menu(old(bearers), old(accounts)), choice, m)
    {
      ghost var tr0 := client.trace;
      ghost var w := client.world;
      ghost var s := Menu(bearers, accounts);
      ghost var e1 := ExecuteEvents(w, choice, s.accounts, At(m, 0));
      ghost var e2 := RefetchEvents(s.accounts);
      ghost var e3 := RotationEvents(w, queryIds, s.bearers, At(m, 2), |queryIds|);
      Execute(choice, At(m, 0));
      Refetch(At(m, 1));
      Rotate(At(m, 2));
      Regroup(tr0, e1, e2);
      Regroup(tr0, e1 + e2, e3);
      ghost var re := Refetched(w, s.accounts, At(m, 1));
      RefetchedAt(w, s.accounts, At(m, 1));
      assert Synced(s.bearers, re);
      RotationKeepsSynced(w, queryIds, s.bearers, re, At(m, 2));
    }

    /** One pass of the main loop: the menu question at `m`; "8" ends the loop, another
        rejected answer asks again, an accepted option is handled. */
    method Pass(m: Moment) returns (exit: bool)
      requires Valid()
      modifies this, client
      ensures Valid()
      ensures exit <==> Choice(client.world, m) == ExitOption
      ensures exit ==> bearers == old(bearers) && accounts == old(accounts)
      ensures exit ==> client.trace == old(client.trace) + [Prompt(MenuChoice, client.world.keyboard(m))]
      ensures !exit ==> Menu(bearers, accounts) == Passed(client.world, queryIds, Menu(old(bearers), old(accounts)), m)
      ensures !exit ==> client.trace == old(client.trace) + PassEvents(client.world, queryIds, Menu(old(bearers), old(accounts)), m)
    {
      ghost var tr0 := client.trace;
      ghost var s := Menu(bearers, accounts);
      var answer := client.Ask(MenuChoice, m);
      var choice := Strings.Trim(answer);
      if choice == ExitOption {
        return true;
      }
      exit := false;
      if IsOption(choice) {
        Handle(choice, m);
        Regroup(tr0, [Prompt(MenuChoice, answer)], HandledEvents(client.world, queryIds, s, choice, m));
      } else {
        assert [Prompt(MenuChoice, answer)] + [] == [Prompt(MenuChoice, answer)];
      }
    }

    /** The main loop (index.js:597-666), for at most `rounds` passes: the r-th pass is asked
        at `At(m, r)`, and the loop stops after the pass answered "8". */
    method Run(rounds: nat, m: Moment) returns (exited: bool)
      requires Valid()
      modifies this, client
      ensures Valid()
      ensures exited == Stopped(client.world, m, rounds)
      ensures Menu(bearers, accounts) == Passes(client.world, queryIds, Menu(old(bearers), old(accounts)), m, rounds).state
      ensures client.trace == old(client.trace) + Passes(client.world, queryIds, Menu(old(bearers), old(accounts)), m, rounds).events
    {
      ghost var tr0 := client.trace;
      ghost var s0 := Menu(bearers, accounts);
      ghost var w := client.world;
      exited := false;
      var i := 0;
      while i < rounds && !exited
        invariant i <= rounds && Valid()
        invariant exited == Stopped(w, m, i)
        invariant Menu(bearers, accounts) == Passes(w, queryIds, s0, m, i).state
        invariant client.trace == tr0 + Passes(w, queryIds, s0, m, i).events
        decreases rounds - i
      {
        ghost var p := Passes(w, queryIds, s0, m, i);
        exited := Pass(At(m, i));
        if !exited {
          Regroup(tr0, p.events, PassEvents(w, queryIds, p.state, At(m, i)));
        }
        i := i + 1;
      }
      if exited {
        StopIsFinal(w, queryIds, s0, m, i, rounds);
      }
    }
  }
}
