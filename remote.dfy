/**
 * The bot's view of the outside world. Every remote request is answered by an oracle:
 * a function from the moment at which the request is made and the request's arguments to
 * how the request ended. The console keyboard is an oracle too. What the bot does is
 * recorded as a trace of events: requests made, waits, saves of the token file and
 * questions asked at the console.
 */
module Remote {
  import opened Apis
  import Tasks

  /** The requests the wrappers of scripts/apis.js make, named after their endpoints. */
  datatype Request =
    | Auth(queryId: string)                // getBearerToken
    | CheckIn(bearer: string)              // performCheckIn
    | UserMe(bearer: string)               // getUsername
    | UserBalance(bearer: string)          // getUserBalance
    | TribeMy(bearer: string)              // getTribeInfo
    | WalletMy(bearer: string)             // getWalletBalance
    | FarmClaim(bearer: string)            // claimFarmingRewards
    | FarmStart(bearer: string)            // startFarming
    | TaskList(bearer: string)             // getTasks
    | TaskStart(bearer: string, taskId: string)
    | TaskClaim(bearer: string, taskId: string)
    | TaskValidate(bearer: string, taskId: string, keyword: string)
    | FriendBalance(bearer: string)        // getFriendBalance
    | FriendClaim(bearer: string)          // claimReferralRewards

  /** A request that changes the state of a task on the server. */
  predicate IsTaskMutation(r: Request) {
    r.TaskStart? || r.TaskClaim? || r.TaskValidate?
  }

  /** The questions the menu driver asks at the console. */
  datatype Question = MenuChoice | Keyword(taskTitle: string) | PressEnter

  datatype Event =
    | Call(req: Request)
    | Sleep(ms: nat)
    | Save(bearers: seq<Option<string>>)   // bearers.json written with this array
    | Prompt(question: Question, answer: string)

  /** Where in the run a request is made: the start of the run, or the `index`-th step of
      the operation running at `parent`. Operations give their steps distinct moments, so
      the world may answer every request of a run differently. */
  datatype Moment = Start | At(parent: Moment, index: nat)

  /** One oracle per endpoint, and the keyboard. */
  datatype World = World(
    auth: (Moment, string) -> Outcome<AuthBody>,
    checkIn: (Moment, string) -> Outcome<bool>,
    userMe: (Moment, string) -> Outcome<UserMeBody>,
    balance: (Moment, string) -> Outcome<BalanceBody>,
    tribe: (Moment, string) -> Outcome<TribeBody>,
    wallet: (Moment, string) -> Outcome<WalletBody>,
    claimFarm: (Moment, string) -> Outcome<FarmClaimBody>,
    startFarm: (Moment, string) -> Outcome<FarmStartBody>,
    tasks: (Moment, string) -> Outcome<seq<Tasks.Section>>,
    startTask: (Moment, string, string) -> Outcome<TaskBody>,
    claimTask: (Moment, string, string) -> Outcome<TaskBody>,
    validate: (Moment, string, string, string) -> Outcome<TaskBody>,
    friendBalance: (Moment, string) -> Outcome<FriendsBody>,
    claimReferral: (Moment, string) -> Outcome<FriendsClaimBody>,
    keyboard: Moment -> string)

  /** JavaScript truthiness of a token: neither `null` nor the empty string. */
  predicate Truthy(b: Option<string>) {
    b.Some? && b.value != ""
  }

  /** Regrouping a trace extended by a piece. */
  lemma Regroup<T>(trace: seq<T>, done: seq<T>, piece: seq<T>)
    ensures trace + done + piece == trace + (done + piece)
  {
  }

  /** The number of events of `es` equal to `e`. */
  function Count(es: seq<Event>, e: Event): (n: nat)
    ensures n <= |es|
    ensures n == 0 <==> e !in es
  {
    if es == [] then 0 else Count(es[..|es| - 1], e) + (if es[|es| - 1] == e then 1 else 0)
  }

  /** Counting distributes over concatenation. */
  lemma {:induction false} CountAppend(a: seq<Event>, b: seq<Event>, e: Event)
    ensures Count(a + b, e) == Count(a, e) + Count(b, e)
    decreases |b|
  {
    if b == [] {
      assert a + b == a;
    } else {
      var n := |b| - 1;
      assert (a + b)[..|a + b| - 1] == a + b[..n];
      CountAppend(a, b[..n], e);
    }
  }
}
