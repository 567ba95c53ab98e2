/**
 * How the drivers read a wrapper's result: the category of the one-line report each
 * action prints for an account. Informational outcomes (already claimed today, too early
 * to claim, needs manual completion, nothing to claim) are told apart from failures by
 * testing the thrown message, as the drivers do.
 */
module Verdicts {
  import opened Strings
  import opened Apis

  datatype Kind =
    | Success         // the action's success line
    | Quiet           // the call returned a falsy value: nothing is printed
    | AlreadyClaimed  // check-in already made today
    | TooEarly        // farming rewards not yet claimable
    | NeedsManual     // the task cannot be completed automatically
    | NoReward        // no referral reward to claim
    | Failure         // a generic failure, printed with its message

  predicate IsInformational(k: Kind) {
    k == AlreadyClaimed || k == TooEarly || k == NeedsManual || k == NoReward
  }

  /** index.js:143-161 (AutoIndex.js:112-129). */
  function CheckInVerdict(r: Result<bool>): Kind {
    match r
    case Returned(reward) => if reward then Success else Quiet
    case Thrown(message) => if message == SameDay then AlreadyClaimed else Failure
  }

  /** The test of index.js:171 (AutoIndex.js:139). */
  predicate IsTooEarlyMessage(message: string) {
    Contains(message, "Error 425") || Contains(message, "Error 400")
  }

  /** index.js:163-178 (AutoIndex.js:131-146). */
  function FarmClaimVerdict(r: Result<Option<string>>): Kind {
    match r
    case Returned(balance) => if balance.Some? then Success else Quiet
    case Thrown(message) => if IsTooEarlyMessage(message) then TooEarly else Failure
  }

  /** index.js:180-192 (AutoIndex.js:148-160): the returned window is always an object. */
  function StartFarmVerdict(r: Result<FarmingWindow>): Kind {
    if r.Returned? then Success else Failure
  }

  /** The test of index.js:235. */
  predicate IsManualTaskMessage(message: string) {
    Contains(message, "400") || Contains(message, "412")
  }

  /** index.js:226-241: one automatic task, from the start result and, when the start did
      not throw, the claim result. */
  function AutoTaskVerdict(start: Result<bool>, claim: Result<bool>): Kind {
    var failed := if start.Thrown? then start else claim;
    if failed.Thrown? then (if IsManualTaskMessage(failed.message) then NeedsManual else Failure)
    else if claim.value then Success
    else Failure
  }

  /** index.js:473: the referral rule, over the integer abstraction of the amount. */
  predicate CanClaimReferral(b: FriendsBody) {
    b.canClaim && b.amountForClaim > 0
  }

  /** index.js:468-484: from the balance result and, when a claim was made, its result. */
  function ReferralVerdict(balance: Result<FriendsBody>, claim: Result<Option<string>>): Kind {
    if balance.Thrown? then Failure
    else if !CanClaimReferral(balance.value) then NoReward
    else if claim.Returned? then Success
    else Failure
  }

  // ---------------------------------------------------------------------------
  // The messages the wrappers build, read back by the drivers

  lemma Decimals()
    ensures Decimal(400) == "400" && Decimal(412) == "412" && Decimal(425) == "425"
  {
    DecimalOf(4, 0, "4");
    DecimalOf(40, 0, "40");
    DecimalOf(4, 1, "4");
    DecimalOf(41, 2, "41");
    DecimalOf(4, 2, "4");
    DecimalOf(42, 5, "42");
  }

  /** Rendering `10 * n + d` appends the digit `d` to the rendering of `n`. */
  lemma DecimalOf(n: nat, d: nat, r: string)
    requires 1 <= n && d < 10 && Decimal(n) == r
    ensures Decimal(10 * n + d) == r + [DigitChar(d)]
  {
    assert (10 * n + d) / 10 == n && (10 * n + d) % 10 == d;
  }

  /** The network-error message, word group by word group, holds neither `4` nor `E`. */
  lemma NetworkErrorWords()
    ensures '4' !in NetworkError && 'E' !in NetworkError
  {
    NetworkErrorSplit();
    WordGroupsLackFourAndE();
  }

  lemma NetworkErrorSplit()
    ensures NetworkError == "Network error: " + "Unable to connect" + " to the server"
  {
  }

  lemma WordGroupsLackFourAndE()
    ensures '4' !in "Network error: " + "Unable to connect" + " to the server"
    ensures 'E' !in "Network error: " + "Unable to connect" + " to the server"
  {
    var a, b, c := "Network error: ", "Unable to connect", " to the server";
    assert '4' !in a && 'E' !in a;
    assert '4' !in b && 'E' !in b;
    assert '4' !in c && 'E' !in c;
  }

  /** The network-error message holds no digit and no capital E, so it contains none of
      `400`, `412`, `425`, `Error 400`, `Error 425`. */
  lemma NetworkErrorHasNoStatus()
    ensures !Contains(NetworkError, "400") && !Contains(NetworkError, "412")
    ensures !Contains(NetworkError, "425")
    ensures !IsTooEarlyMessage(NetworkError) && !IsManualTaskMessage(NetworkError)
  {
    var m := NetworkError;
    NetworkErrorWords();
    assert forall k :: 0 <= k < |m| ==> m[k] != '4' && m[k] != 'E';
    MissingFirstCharNotContained(m, "400");
    MissingFirstCharNotContained(m, "412");
    MissingFirstCharNotContained(m, "425");
    MissingFirstCharNotContained(m, "Error 425");
    MissingFirstCharNotContained(m, "Error 400");
  }

  /** Check-in is reported as already claimed exactly when the server answered with the
      message `same day`; every other failure is generic. */
  lemma CheckInAlreadyClaimedIff(o: Outcome<bool>)
    ensures CheckInVerdict(PerformCheckIn(o)) == AlreadyClaimed <==> o.HttpErr? && o.message == SameDay
    ensures PerformCheckIn(o).Thrown? && !(o.HttpErr? && o.message == SameDay) ==>
              CheckInVerdict(PerformCheckIn(o)) == Failure
  {
    if o.HttpErr? && o.message == "" {
      assert |AxiosMessage(o.status)| > |SameDay|;
    }
  }

  /** An error response with status 425 or 400 from the farming claim reads as too early. */
  lemma FarmClaimTooEarly(o: Outcome<FarmClaimBody>)
    requires o.HttpErr? && (o.status == 425 || o.status == 400)
    ensures FarmClaimVerdict(ClaimFarmingRewards(o)) == TooEarly
  {
    Decimals();
    var m := ClaimFarmingRewards(o).message;
    var head := if o.status == 425 then "Error 425" else "Error 400";
    assert StatusPrefix(o.status) == head + ": ";
    assert m[..|head|] == head;
    PrefixIsContained(m, head);
  }

  /** A farming claim that got no response is a generic failure, never "too early". */
  lemma FarmClaimNoResponseFails(o: Outcome<FarmClaimBody>)
    requires o.NoResponse?
    ensures FarmClaimVerdict(ClaimFarmingRewards(o)) == Failure
  {
    NetworkErrorHasNoStatus();
  }

  /** A message that begins with the prefix of status 400 or 412 reads as needing manual
      completion. */
  lemma ManualStatusMessage(status: nat, m: string)
    requires status == 400 || status == 412
    requires |StatusPrefix(status)| <= |m| && m[..|StatusPrefix(status)|] == StatusPrefix(status)
    ensures IsManualTaskMessage(m)
  {
    Decimals();
    var code := Decimal(status);
    var p := StatusPrefix(status);
    assert |code| == 3 && |p| == 11;
    assert p[6..9] == code;
    assert m[6..9] == p[6..9];
    assert OccursAt(m, code, 6);
    assert code == "400" || code == "412";
  }

  /** An error response with status 400 or 412 to starting or claiming an automatic task
      reads as needing manual completion. */
  lemma AutoTaskNeedsManual(start: Outcome<TaskBody>, claim: Outcome<TaskBody>)
    requires var failed := if start.HttpErr? || start.NoResponse? then start else claim;
             failed.HttpErr? && (failed.status == 400 || failed.status == 412)
    ensures AutoTaskVerdict(StartTaskAction(start), ClaimTaskAction(claim)) == NeedsManual
  {
    if start.HttpErr? {
      ManualStatusMessage(start.status, StartTaskAction(start).message);
    } else {
      ManualStatusMessage(claim.status, ClaimTaskAction(claim).message);
    }
  }

  /** A task call that got no response is a generic failure, never "needs manual". */
  lemma AutoTaskNoResponseFails(start: Outcome<TaskBody>, claim: Outcome<TaskBody>)
    requires start.NoResponse? || (start.Ok? && claim.NoResponse?)
    ensures AutoTaskVerdict(StartTaskAction(start), ClaimTaskAction(claim)) == Failure
  {
    NetworkErrorHasNoStatus();
  }
}
