/**
 * The unattended driver of AutoIndex.js: one token batch and one build of the account table
 * at start, then cycles numbered 1, 2, 3, 1, ... Every cycle fetches a fresh batch of tokens
 * and hands them to the accounts as they come; cycle 1 checks in, claims and restarts farming,
 * cycles 2 and 3 only claim and restart; a cycle ends with a nine-hour wait.
 */
module AutoDriver {
  import opened Apis
  import opened Remote
  import opened Plan
  import opened Session

  const ActionPause := 30000                 // between the actions of a cycle
  const CyclePause := 9 * 60 * 60 * 1000     // after every cycle

  /** `cycle % 3 + 1`: the cycles run 1, 2, 3 and back to 1. */
  function NextCycle(c: nat): (r: nat)
    ensures 1 <= r <= 3
    ensures 1 <= c < 3 ==> r == c + 1
    ensures c == 3 ==> r == 1
  {
    c % 3 + 1
  }

  /** The cycle `n` cycles after cycle `c`. */
  function CycleAfter(c: nat, n: nat): nat
    decreases n
  {
    if n == 0 then c else NextCycle(CycleAfter(c, n - 1))
  }

  /** Values of the counter stay in 1..3. */
  lemma {:induction false} CycleAfterRange(c: nat, n: nat)
    requires 1 <= c <= 3
    ensures 1 <= CycleAfter(c, n) <= 3
  {
    if n > 0 {}
  }

  /** Three cycles bring the counter back where it was. */
  lemma NextCycleThrice(c: nat)
    requires 1 <= c <= 3
    ensures NextCycle(NextCycle(NextCycle(c))) == c
  {
    if c == 1 {} else if c == 2 {} else {}
  }

  /** The counter has period 3. */
  lemma {:induction false} CycleAfterPeriod(c: nat, q: nat, r: nat)
    requires 1 <= c <= 3
    ensures CycleAfter(c, 3 * q + r) == CycleAfter(c, r)
    decreases q
  {
    if q > 0 {
      var n := 3 * q + r;
      CycleAfterPeriod(c, q - 1, r);
      var x := CycleAfter(c, n - 3);
      CycleAfterRange(c, n - 3);
      NextCycleThrice(x);
      var y := CycleAfter(c, n - 2);
      var z := CycleAfter(c, n - 1);
      assert y == NextCycle(x);
      assert z == NextCycle(y);
      assert CycleAfter(c, n) == NextCycle(z);
    }
  }

  // ---------------------------------------------------------------------------
  // The tokens of a cycle (AutoIndex.js:221-225)

  /** The table after `accounts[i].bearer = bs[i]` for every i below |bs|: each account takes
      its new token as it is, `null` included, and keeps its record. */
  function WithBearers(accounts: seq<Account>, bs: seq<Option<string>>): (r: seq<Account>)
    requires |bs| <= |accounts|
    ensures |r| == |accounts|
    decreases |bs|
  {
    if bs == [] then accounts
    else
      var n := |bs| - 1;
      WithBearers(accounts, bs[..n])[n := Account(accounts[n].snapshot, bs[n])]
  }

  /** Every covered account holds exactly its new token, a failed request leaving it without
      one even when it had one before; records are untouched. */
  lemma {:induction false} WithBearersAt(accounts: seq<Account>, bs: seq<Option<string>>)
    requires |bs| <= |accounts|
    ensures forall i :: 0 <= i < |accounts| ==>
              WithBearers(accounts, bs)[i] == if i < |bs| then Account(accounts[i].snapshot, bs[i]) else accounts[i]
    decreases |bs|
  {
    if bs != [] {
      var n := |bs| - 1;
      WithBearersAt(accounts, bs[..n]);
      assert forall i :: 0 <= i < n ==> bs[..n][i] == bs[i];
    }
  }

  // ---------------------------------------------------------------------------
  // The actions of a cycle (AutoIndex.js:228-276)

  /** The claim at step 2 of the cycle run at `m` and the restart at step 3, 30 seconds
      apart: the loops every cycle runs. */
  function ClaimAndRestart(w: World, accounts: seq<Account>, m: Moment): seq<Event> {
    Sweep(w, ClaimFarmAll, accounts, At(m, 2)) + [Sleep(ActionPause)] + Sweep(w, StartFarmAll, accounts, At(m, 3))
  }

  /** The account loops of cycle `c` run at `m`: in cycle 1 the check-in at step 1 and 30
      seconds before the claim and the restart; in cycles 2 and 3 these two only. */
  function CycleWork(w: World, c: nat, accounts: seq<Account>, m: Moment): seq<Event> {
    if c == 1 then Sweep(w, CheckInAll, accounts, At(m, 1)) + [Sleep(ActionPause)] + ClaimAndRestart(w, accounts, m)
    else if c == 2 || c == 3 then ClaimAndRestart(w, accounts, m)
    else []
  }

  /** Every event of a one-request loop is its pause or its request for one of the tokens. */
  lemma {:induction false} PacedCallsAre(a: Action, bs: seq<string>)
    ensures forall e :: e in PacedCalls(a, bs) ==>
              e == Sleep(AuthPause) || exists b :: b in bs && e == Call(FirstRequest(a, b))
    decreases |bs|
  {
    if bs != [] {
      var n := |bs| - 1;
      PacedCallsAre(a, bs[..n]);
      forall e | e in PacedCalls(a, bs)
        ensures e == Sleep(AuthPause) || exists b :: b in bs && e == Call(FirstRequest(a, b))
      {
        if e in PacedCalls(a, bs[..n]) {
          if e != Sleep(AuthPause) {
            var b :| b in bs[..n] && e == Call(FirstRequest(a, b));
            assert b in bs;
          }
        } else {
          assert e == Call(FirstRequest(a, bs[n])) || e == Sleep(AuthPause);
          assert bs[n] in bs;
        }
      }
    }
  }

  /** Every token of the list gets the loop's request. */
  lemma {:induction false} PacedCallsReach(a: Action, bs: seq<string>, b: string)
    requires b in bs
    ensures Call(FirstRequest(a, b)) in PacedCalls(a, bs)
    decreases |bs|
  {
    var n := |bs| - 1;
    if bs[n] != b {
      assert b in bs[..n];
      PacedCallsReach(a, bs[..n], b);
    }
  }

  /** A check-in request. */
  predicate IsCheckIn(e: Event) {
    e.Call? && e.req.CheckIn?
  }

  /** Cycles 2 and 3 never check in. */
  lemma NoCheckInLater(w: World, c: nat, accounts: seq<Account>, m: Moment)
    requires c == 2 || c == 3
    ensures forall e :: e in CycleWork(w, c, accounts, m) ==> !IsCheckIn(e)
  {
    var t := TruthyBearers(accounts);
    SweepSkipsFalsy(w, ClaimFarmAll, accounts, At(m, 2));
    SweepSkipsFalsy(w, StartFarmAll, accounts, At(m, 3));
    PacedCallsAre(ClaimFarmAll, t);
    PacedCallsAre(StartFarmAll, t);
    assert ClaimAndRestart(w, accounts, m) == PacedCalls(ClaimFarmAll, t) + [Sleep(ActionPause)] + PacedCalls(StartFarmAll, t);
  }

  /** Cycle 1 checks in, claims and restarts farming for every truthy token, in that order of
      loops, each loop pacing its requests. */
  lemma FirstCycleOrder(w: World, accounts: seq<Account>, m: Moment)
    ensures CycleWork(w, 1, accounts, m) ==
              PacedCalls(CheckInAll, TruthyBearers(accounts)) + [Sleep(ActionPause)] +
              PacedCalls(ClaimFarmAll, TruthyBearers(accounts)) + [Sleep(ActionPause)] +
              PacedCalls(StartFarmAll, TruthyBearers(accounts))
  {
    var t := TruthyBearers(accounts);
    SweepSkipsFalsy(w, CheckInAll, accounts, At(m, 1));
    SweepSkipsFalsy(w, ClaimFarmAll, accounts, At(m, 2));
    SweepSkipsFalsy(w, StartFarmAll, accounts, At(m, 3));
    var ch := PacedCalls(CheckInAll, t);
    var cl := PacedCalls(ClaimFarmAll, t);
    var st := PacedCalls(StartFarmAll, t);
    assert ClaimAndRestart(w, accounts, m) == cl + [Sleep(ActionPause)] + st;
    assert ch + [Sleep(ActionPause)] + (cl + [Sleep(ActionPause)] + st) == ch + [Sleep(ActionPause)] + cl + [Sleep(ActionPause)] + st;
  }

  /** Every truthy token gets the check-in, the claim and the restart of cycle 1. */
  lemma FirstCycleReachesAll(w: World, accounts: seq<Account>, m: Moment, b: string)
    requires b in TruthyBearers(accounts)
    ensures Call(CheckIn(b)) in Sweep(w, CheckInAll, accounts, At(m, 1))
    ensures Call(FarmClaim(b)) in Sweep(w, ClaimFarmAll, accounts, At(m, 2))
    ensures Call(FarmStart(b)) in Sweep(w, StartFarmAll, accounts, At(m, 3))
  {
    var t := TruthyBearers(accounts);
    SweepSkipsFalsy(w, CheckInAll, accounts, At(m, 1));
    SweepSkipsFalsy(w, ClaimFarmAll, accounts, At(m, 2));
    SweepSkipsFalsy(w, StartFarmAll, accounts, At(m, 3));
    PacedCallsReach(CheckInAll, t, b);
    PacedCallsReach(ClaimFarmAll, t, b);
    PacedCallsReach(StartFarmAll, t, b);
  }

  /** In a cycle only the tokens of that cycle's batch are used: every request goes to a
      truthy token the batch returned. */
  lemma FreshTokensOnly(w: World, c: nat, accounts: seq<Account>, bs: seq<Option<string>>, m: Moment)
    requires |bs| == |accounts|
    ensures forall e :: e in CycleWork(w, c, WithBearers(accounts, bs), m) && e.Call? ==>
              !e.req.Auth? && e.req.bearer != "" && Some(e.req.bearer) in bs
  {
    var accs := WithBearers(accounts, bs);
    WithBearersAt(accounts, bs);
    FalsyNeverCalled(w, CheckInAll, accs, At(m, 1));
    FalsyNeverCalled(w, ClaimFarmAll, accs, At(m, 2));
    FalsyNeverCalled(w, StartFarmAll, accs, At(m, 3));
    var s1 := Sweep(w, CheckInAll, accs, At(m, 1));
    var s2 := Sweep(w, ClaimFarmAll, accs, At(m, 2));
    var s3 := Sweep(w, StartFarmAll, accs, At(m, 3));
    forall e | e in CycleWork(w, c, accs, m) && e.Call?
      ensures !e.req.Auth? && e.req.bearer != "" && Some(e.req.bearer) in bs
    {
      var es: seq<Event>;
      if e in s1 {
        es := s1;
      } else if e in s2 {
        es := s2;
      } else {
        assert e in s3;
        es := s3;
      }
      var k :| 0 <= k < |es| && es[k] == e;
      var i :| 0 <= i < |accs| && accs[i].bearer == Some(es[k].req.bearer);
      assert bs[i] == Some(e.req.bearer);
    }
  }

  // ---------------------------------------------------------------------------
  // Whole cycles

  /** What the scheduler keeps between cycles. */
  datatype Schedule = Schedule(bearers: seq<Option<string>>, accounts: seq<Account>, cycle: nat)

  ghost predicate Fits(ids: seq<string>, s: Schedule) {
    |s.bearers| == |ids| && |s.accounts| == |ids| && 1 <= s.cycle <= 3
  }

  /** The state after the cycle run at `m`: the batch of its step 0 in the array and in the
      accounts, and the next cycle number. */
  function AfterCycle(w: World, ids: seq<string>, s: Schedule, m: Moment): (r: Schedule)
    requires Fits(ids, s)
    ensures Fits(ids, r)
  {
    BatchAt(w, ids, At(m, 0));
    var bs := Batch(w, ids, At(m, 0));
    Schedule(bs, WithBearers(s.accounts, bs), NextCycle(s.cycle))
  }

  /** The events of the cycle run at `m`: the batch, the cycle's loops with the new tokens,
      the nine-hour wait. */
  function CycleEvents(w: World, ids: seq<string>, s: Schedule, m: Moment): seq<Event>
    requires Fits(ids, s)
  {
    BatchAt(w, ids, At(m, 0));
    var bs := Batch(w, ids, At(m, 0));
    InitEvents(w, ids, At(m, 0)) + CycleWork(w, s.cycle, WithBearers(s.accounts, bs), m) + [Sleep(CyclePause)]
  }

  /** Every cycle begins by requesting a token for every query id, in order, and saving the
      batch the accounts then hold, whatever tokens they held before; it ends with the
      nine-hour wait. */
  lemma CycleRenewsAll(w: World, ids: seq<string>, s: Schedule, m: Moment)
    requires Fits(ids, s)
    ensures var es := CycleEvents(w, ids, s, m);
            |es| > 2 * |ids| &&
            (forall k :: 0 <= k < |ids| ==> es[2 * k] == Call(Auth(ids[k]))) &&
            es[2 * |ids|] == Save(AfterCycle(w, ids, s, m).bearers) &&
            es[|es| - 1] == Sleep(CyclePause)
  {
    BatchAt(w, ids, At(m, 0));
    var bs := Batch(w, ids, At(m, 0));
    var init := InitEvents(w, ids, At(m, 0));
    var work := CycleWork(w, s.cycle, WithBearers(s.accounts, bs), m);
    SavedOnceAtEnd(w, ids, At(m, 0));
    AuthPacingAt(ids);
    var es := init + work + [Sleep(CyclePause)];
    assert CycleEvents(w, ids, s, m) == es;
    forall k | 0 <= k < |ids|
      ensures es[2 * k] == Call(Auth(ids[k]))
    {
      assert es[2 * k] == init[2 * k] == AuthPacing(ids)[2 * k];
    }
    assert es[2 * |ids|] == init[2 * |ids|];
  }

  /** The state after the first `n` cycles, the k-th run at `At(m, k)`. */
  function CyclesState(w: World, ids: seq<string>, s: Schedule, m: Moment, n: nat): (r: Schedule)
    requires Fits(ids, s)
    ensures Fits(ids, r)
    decreases n
  {
    if n == 0 then s else AfterCycle(w, ids, CyclesState(w, ids, s, m, n - 1), At(m, n - 1))
  }

  /** The events of the first `n` cycles. */
  function CyclesEvents(w: World, ids: seq<string>, s: Schedule, m: Moment, n: nat): seq<Event>
    requires Fits(ids, s)
    decreases n
  {
    if n == 0 then []
    else CyclesEvents(w, ids, s, m, n - 1) + CycleEvents(w, ids, CyclesState(w, ids, s, m, n - 1), At(m, n - 1))
  }

  /** One cycle moves the counter on once. */
  lemma CycleStep(w: World, ids: seq<string>, s: Schedule, m: Moment)
    requires Fits(ids, s)
    ensures AfterCycle(w, ids, s, m).cycle == NextCycle(s.cycle)
  {
    BatchAt(w, ids, At(m, 0));
    var bs := Batch(w, ids, At(m, 0));
    assert AfterCycle(w, ids, s, m) == Schedule(bs, WithBearers(s.accounts, bs), NextCycle(s.cycle));
  }

  /** The counter after `n` cycles: the counter moved on once per cycle. */
  lemma {:induction false} CyclesCount(w: World, ids: seq<string>, s: Schedule, m: Moment, n: nat)
    requires Fits(ids, s)
    ensures CyclesState(w, ids, s, m, n).cycle == CycleAfter(s.cycle, n)
    decreases n
  {
    if n > 0 {
      CyclesCount(w, ids, s, m, n - 1);
      CycleStep(w, ids, CyclesState(w, ids, s, m, n - 1), At(m, n - 1));
    }
  }

  /** Counting from cycle 1, cycle 1 comes back exactly every third cycle. */
  lemma FromFirstCycle(k: nat)
    ensures CycleAfter(1, k) == 1 <==> k % 3 == 0
  {
    CycleAfterPeriod(1, k / 3, k % 3);
    assert k == 3 * (k / 3) + k % 3;
    assert CycleAfter(1, 1) == 2;
    assert CycleAfter(1, 2) == 3;
  }

  /** Starting from cycle 1, the k-th cycle checks in exactly when k is a multiple of 3. */
  lemma CheckInEveryThird(w: World, ids: seq<string>, s: Schedule, m: Moment, k: nat)
    requires Fits(ids, s) && s.cycle == 1
    ensures CyclesState(w, ids, s, m, k).cycle == 1 <==> k % 3 == 0
  {
    CyclesCount(w, ids, s, m, k);
    FromFirstCycle(k);
  }

  // ---------------------------------------------------------------------------

  class AutoBot {
    const client: Client
    const queryIds: seq<string>
    var bearers: seq<Option<string>>
    var accounts: seq<Account>
    var cycle: nat

    ghost predicate Valid()
      reads this
    {
      Fits(queryIds, Schedule(bearers, accounts, cycle))
    }

    constructor (c: Client, ids: seq<string>, bs: seq<Option<string>>, accs: seq<Account>)
      requires |bs| == |ids| && |accs| == |ids|
      ensures client == c && queryIds == ids && bearers == bs && accounts == accs && cycle == 1
      ensures Valid()
    {
      client := c;
      queryIds := ids;
      bearers := bs;
      accounts := accs;
      cycle := 1;
    }

    /** The start of the scheduler (AutoIndex.js:172-214): no bot when there is no query id
        (the process exits); otherwise the token batch at step 0, the build at step 1, and
        cycle 1 next. */
    static method Launch(c: Client, ids: seq<string>, m: Moment) returns (bot: AutoBot?)
      modifies c
      ensures bot == null <==> ids == []
      ensures ids == [] ==> c.trace == old(c.trace)
      ensures bot != null ==>
                fresh(bot) && bot.client == c && bot.queryIds == ids && bot.Valid() && bot.cycle == 1 &&
                bot.bearers == Batch(c.world, ids, At(m, 0)) &&
                bot.accounts == Built(c.world, bot.bearers, At(m, 1)) &&
                c.trace == old(c.trace) + InitEvents(c.world, ids, At(m, 0)) + BuildEvents(bot.bearers)
    {
      if ids == [] {
        return null;
      }
      var bs := c.InitializeBearers(ids, At(m, 0));
      var accs := c.BuildAccounts(bs, At(m, 1));
      BatchAt(c.world, ids, At(m, 0));
      BuiltShape(c.world, bs, At(m, 1));
      bot := new AutoBot(c, ids, bs, accs);
    }

    /** `accounts[i].bearer = bearers[i]` for every token of the batch (AutoIndex.js:223-225). */
    method AssignBearers()
      requires |bearers| == |accounts|
      modifies this
      ensures bearers == old(bearers) && cycle == old(cycle)
      ensures accounts == WithBearers(old(accounts), bearers)
    {
      ghost var accs := accounts;
      for i := 0 to |bearers|
        invariant bearers == old(bearers) && cycle == old(cycle)
        invariant accounts == WithBearers(accs, bearers[..i])
      {
        assert bearers[..i + 1][..i] == bearers[..i];
        WithBearersAt(accs, bearers[..i]);
        accounts := accounts[i := Account(accounts[i].snapshot, bearers[i])];
      }
      assert bearers[..|bearers|] == bearers;
    }

    /** The claim and restart loops of every cycle (AutoIndex.js:242-256, 262-276). */
    method ClaimAndRestartAll(m: Moment)
      modifies client
      ensures client.trace == old(client.trace) + ClaimAndRestart(client.world, accounts, m)
    {
      ghost var tr0 := client.trace;
      ghost var claims := Sweep(client.world, ClaimFarmAll, accounts, At(m, 2));
      client.ForEachAccount(ClaimFarmAll, accounts, At(m, 2));
      client.Wait(ActionPause);
      client.ForEachAccount(StartFarmAll, accounts, At(m, 3));
      Regroup(tr0, claims, [Sleep(ActionPause)]);
      Regroup(tr0, claims + [Sleep(ActionPause)], Sweep(client.world, StartFarmAll, accounts, At(m, 3)));
    }

    /** The account loops of the current cycle (AutoIndex.js:228-276). */
    method Work(m: Moment)
      modifies client
      ensures client.trace == old(client.trace) + CycleWork(client.world, cycle, accounts, m)
    {
      ghost var tr0 := client.trace;
      if cycle == 1 {
        ghost var checks := Sweep(client.world, CheckInAll, accounts, At(m, 1));
        client.ForEachAccount(CheckInAll, accounts, At(m, 1));
        client.Wait(ActionPause);
        ClaimAndRestartAll(m);
        Regroup(tr0, checks, [Sleep(ActionPause)]);
        Regroup(tr0, checks + [Sleep(ActionPause)], ClaimAndRestart(client.world, accounts, m));
      } else if cycle == 2 || cycle == 3 {
        ClaimAndRestartAll(m);
      } else {
        assert tr0 + [] == tr0;
      }
    }

    /** One cycle (AutoIndex.js:219-291): a fresh batch at step 0 handed to the accounts, the
        cycle's loops, the next cycle number, then the nine-hour wait. */
    method RunCycle(m: Moment)
      requires Valid()
      modifies this, client
      ensures Valid()
      ensures Schedule(bearers, accounts, cycle) == AfterCycle(client.world, queryIds, Schedule(old(bearers), old(accounts), old(cycle)), m)
      ensures client.trace == old(client.trace) + CycleEvents(client.world, queryIds, Schedule(old(bearers), old(accounts), old(cycle)), m)
    {
      ghost var tr0 := client.trace;
      ghost var w := client.world;
      bearers := client.InitializeBearers(queryIds, At(m, 0));
      BatchAt(w, queryIds, At(m, 0));
      AssignBearers();
      ghost var init := InitEvents(w, queryIds, At(m, 0));
      Work(m);
      ghost var work := CycleWork(w, cycle, accounts, m);
      cycle := NextCycle(cycle);
      client.Wait(CyclePause);
      Regroup(tr0, init, work);
      Regroup(tr0, init + work, [Sleep(CyclePause)]);
    }

    /** The endless loop of cycles (AutoIndex.js:218-292), for `n` cycles: the k-th is run at
        `At(m, k)`. */
    method Run(n: nat, m: Moment)
      requires Valid()
      modifies this, client
      ensures Valid()
      ensures Schedule(bearers, accounts, cycle) == CyclesState(client.world, queryIds, Schedule(old(bearers), old(accounts), old(cycle)), m, n)
      ensures client.trace == old(client.trace) + CyclesEvents(client.world, queryIds, Schedule(old(bearers), old(accounts), old(cycle)), m, n)
    {
      ghost var tr0 := client.trace;
      ghost var s0 := Schedule(bearers, accounts, cycle);
      ghost var w := client.world;
      for k := 0 to n
        invariant Valid()
        invariant Schedule(bearers, accounts, cycle) == CyclesState(w, queryIds, s0, m, k)
        invariant client.trace == tr0 + CyclesEvents(w, queryIds, s0, m, k)
      {
        ghost var before := CyclesEvents(w, queryIds, s0, m, k);
        RunCycle(At(m, k));
        Regroup(tr0, before, CycleEvents(w, queryIds, CyclesState(w, queryIds, s0, m, k), At(m, k)));
      }
    }
  }
}
