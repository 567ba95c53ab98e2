/**
 * The request wrappers of scripts/apis.js. Each wrapper makes one request; here the
 * request's ending is an input (`Outcome`) and the wrapper is the function that turns
 * it into the value it returns or the message of the `Error` it throws (`Result`).
 */
module Apis {
  import opened Strings
  import Tasks

  datatype Option<T> = None | Some(value: T)

  /** How one request ended: a 2xx response with its body, an error response with its
      status and `data.message` (the empty string when absent), or no response at all. */
  datatype Outcome<T> = Ok(value: T) | HttpErr(status: nat, message: string) | NoResponse

  /** What a wrapper does with it: return a value, or throw an `Error` with a message. */
  datatype Result<T> = Returned(value: T) | Thrown(message: string)

  const NetworkError := "Network error: Unable to connect to the server"
  /** The server message (and the rethrown message) for a check-in already made today. */
  const SameDay := "same day"
  const TribeNotFound := "NOT_FOUND"
  const NotAvailable := "N/A"
  /** What Node reports when `error.response.status` is read while `error.response` is undefined. */
  const MissingResponse := "Cannot read properties of undefined (reading 'status')"

  /** Axios' own `error.message` for an error response. */
  function AxiosMessage(status: nat): string {
    "Request failed with status code " + Decimal(status)
  }

  /** JavaScript's `message || fallback` on a string. */
  function OrElse(message: string, fallback: string): string {
    if message != "" then message else fallback
  }

  /** The header every wrapper but one puts in front of an error response's message. */
  function StatusPrefix(status: nat): string {
    "Error " + Decimal(status) + ": "
  }

  /** `Error ${status}: ${message || fallback}`. */
  function HttpMessage(status: nat, message: string, fallback: string): (m: string)
    ensures |StatusPrefix(status)| <= |m| && m[..|StatusPrefix(status)|] == StatusPrefix(status)
    ensures m[|StatusPrefix(status)|..] == OrElse(message, fallback)
  {
    StatusPrefix(status) + OrElse(message, fallback)
  }

  // ---------------------------------------------------------------------------
  // Response bodies (the parts the code reads) and what the wrappers hand back

  datatype AuthBody = AuthBody(access: string)
  datatype UserMeBody = UserMeBody(username: Option<string>)
  /** `others` stands for the remaining fields of the body, which the wrapper drops. */
  datatype BalanceBody = BalanceBody(availableBalance: Option<string>, playPasses: Option<string>, others: map<string, string>)
  datatype Balance = Balance(availableBalance: Option<string>, playPasses: Option<string>)
  datatype TribeBody = TribeBody(message: string, title: Option<string>)
  datatype WalletBody = WalletBody(address: Option<string>, balanceMigrated: Option<bool>, others: map<string, string>)
  datatype WalletInfo = WalletInfo(address: Option<string>, balanceMigrated: Option<bool>)
  /** `availableBalance` is None when it is `undefined` or `null`. */
  datatype FarmClaimBody = FarmClaimBody(availableBalance: Option<string>)
  datatype FarmStartBody = FarmStartBody(startTime: Option<int>, endTime: Option<int>, others: map<string, string>)
  datatype FarmingWindow = FarmingWindow(startTime: Option<int>, endTime: Option<int>)
  datatype TaskBody = TaskBody(status: string)
  /** `amountForClaim` is the sign-preserving integer abstraction of `parseFloat(amountForClaim)`. */
  datatype FriendsBody = FriendsBody(canClaim: bool, amountForClaim: int)
  datatype FriendsClaimBody = FriendsClaimBody(claimBalance: Option<string>)

  // ---------------------------------------------------------------------------
  // The wrappers

  /** scripts/apis.js:5-27. The body is modelled by its truthiness, all the caller tests. */
  function PerformCheckIn(o: Outcome<bool>): (r: Result<bool>)
    ensures r.Returned? <==> o.Ok?
    ensures o.Ok? ==> r.value == o.value
    ensures o.HttpErr? && o.message == SameDay ==> r.message == SameDay
    ensures o.HttpErr? && o.message != SameDay ==> r.message == OrElse(o.message, AxiosMessage(o.status))
    ensures o.NoResponse? ==> r.message == NetworkError
  {
    match o
    case Ok(data) => Returned(data)
    case HttpErr(status, message) =>
      if message == SameDay then Thrown(SameDay)
      else Thrown(OrElse(message, AxiosMessage(status)))
    case NoResponse => Thrown(NetworkError)
  }

  /** scripts/apis.js:29-45. */
  function GetBearerToken(o: Outcome<AuthBody>): (r: Result<string>)
    ensures r.Returned? <==> o.Ok?
    ensures o.Ok? ==> r.value == o.value.access
    ensures o.HttpErr? ==> r.message == HttpMessage(o.status, o.message, "Failed to obtain bearer token")
    ensures o.NoResponse? ==> r.message == NetworkError
  {
    match o
    case Ok(data) => Returned(data.access)
    case HttpErr(status, message) => Thrown(HttpMessage(status, message, "Failed to obtain bearer token"))
    case NoResponse => Thrown(NetworkError)
  }

  /** scripts/apis.js:47-61. */
  function GetFriendBalance(o: Outcome<FriendsBody>): (r: Result<FriendsBody>)
    ensures r.Returned? <==> o.Ok?
    ensures o.Ok? ==> r.value == o.value
    ensures o.HttpErr? ==> r.message == HttpMessage(o.status, o.message, "Failed to get friend balance")
    ensures o.NoResponse? ==> r.message == NetworkError
  {
    match o
    case Ok(data) => Returned(data)
    case HttpErr(status, message) => Thrown(HttpMessage(status, message, "Failed to get friend balance"))
    case NoResponse => Thrown(NetworkError)
  }

  /** scripts/apis.js:63-77. */
  function ClaimReferralRewards(o: Outcome<FriendsClaimBody>): (r: Result<Option<string>>)
    ensures r.Returned? <==> o.Ok?
    ensures o.Ok? ==> r.value == o.value.claimBalance
    ensures o.HttpErr? ==> r.message == HttpMessage(o.status, o.message, "Failed to claim referral rewards")
    ensures o.NoResponse? ==> r.message == NetworkError
  {
    match o
    case Ok(data) => Returned(data.claimBalance)
    case HttpErr(status, message) => Thrown(HttpMessage(status, message, "Failed to claim referral rewards"))
    case NoResponse => Thrown(NetworkError)
  }

  /** scripts/apis.js:79-96: only `availableBalance` and `playPasses` are kept. */
  function GetUserBalance(o: Outcome<BalanceBody>): (r: Result<Balance>)
    ensures r.Returned? <==> o.Ok?
    ensures o.Ok? ==> r.value == Balance(o.value.availableBalance, o.value.playPasses)
    ensures o.HttpErr? ==> r.message == HttpMessage(o.status, o.message, "Failed to get user balance")
    ensures o.NoResponse? ==> r.message == NetworkError
  {
    match o
    case Ok(data) => Returned(Balance(data.availableBalance, data.playPasses))
    case HttpErr(status, message) => Thrown(HttpMessage(status, message, "Failed to get user balance"))
    case NoResponse => Thrown(NetworkError)
  }

  /** scripts/apis.js:98-115: `'N/A'` for a missing tribe; no network-error branch, so a
      missing response throws while reading `error.response.status`. */
  function GetTribeInfo(o: Outcome<TribeBody>): (r: Result<string>)
    ensures r.Returned? <==> o.Ok? || (o.HttpErr? && o.status == 404)
    ensures r.Returned? && r.value != NotAvailable ==>
              o.Ok? && o.value.message != TribeNotFound && o.value.title == Some(r.value)
    ensures o.Ok? && o.value.message != TribeNotFound && o.value.title.Some? && o.value.title.value != "" ==>
              r == Returned(o.value.title.value)
    ensures o.Ok? && (o.value.message == TribeNotFound || o.value.title == None || o.value.title == Some("")) ==>
              r == Returned(NotAvailable)
    ensures o.HttpErr? && o.status == 404 ==> r == Returned(NotAvailable)
    ensures o.HttpErr? && o.status != 404 ==> r.message == HttpMessage(o.status, o.message, "Failed to get tribe info")
    ensures o.NoResponse? ==> r.message == MissingResponse
  {
    match o
    case Ok(data) =>
      if data.message == TribeNotFound then Returned(NotAvailable)
      else if data.title.Some? && data.title.value != "" then Returned(data.title.value)
      else Returned(NotAvailable)
    case HttpErr(status, message) =>
      if status == 404 then Returned(NotAvailable)
      else Thrown(HttpMessage(status, message, "Failed to get tribe info"))
    case NoResponse => Thrown(MissingResponse)
  }

  /** scripts/apis.js:117-131. */
  function GetUsername(o: Outcome<UserMeBody>): (r: Result<UserMeBody>)
    ensures r.Returned? <==> o.Ok?
    ensures o.Ok? ==> r.value == o.value
    ensures o.HttpErr? ==> r.message == HttpMessage(o.status, o.message, "Failed to get username")
    ensures o.NoResponse? ==> r.message == NetworkError
  {
    match o
    case Ok(data) => Returned(data)
    case HttpErr(status, message) => Thrown(HttpMessage(status, message, "Failed to get username"))
    case NoResponse => Thrown(NetworkError)
  }

  /** scripts/apis.js:133-150: only `address` and `balanceMigrated` are kept. */
  function GetWalletBalance(o: Outcome<WalletBody>): (r: Result<WalletInfo>)
    ensures r.Returned? <==> o.Ok?
    ensures o.Ok? ==> r.value == WalletInfo(o.value.address, o.value.balanceMigrated)
    ensures o.HttpErr? ==> r.message == HttpMessage(o.status, o.message, "Failed to get wallet balance")
    ensures o.NoResponse? ==> r.message == NetworkError
  {
    match o
    case Ok(data) => Returned(WalletInfo(data.address, data.balanceMigrated))
    case HttpErr(status, message) => Thrown(HttpMessage(status, message, "Failed to get wallet balance"))
    case NoResponse => Thrown(NetworkError)
  }

  /** scripts/apis.js:152-166. */
  function ClaimFarmingRewards(o: Outcome<FarmClaimBody>): (r: Result<Option<string>>)
    ensures r.Returned? <==> o.Ok?
    ensures o.Ok? ==> r.value == o.value.availableBalance
    ensures o.HttpErr? ==> r.message == HttpMessage(o.status, o.message, "Failed to claim farming rewards")
    ensures o.NoResponse? ==> r.message == NetworkError
  {
    match o
    case Ok(data) => Returned(data.availableBalance)
    case HttpErr(status, message) => Thrown(HttpMessage(status, message, "Failed to claim farming rewards"))
    case NoResponse => Thrown(NetworkError)
  }

  /** scripts/apis.js:168-185. */
  function StartFarming(o: Outcome<FarmStartBody>): (r: Result<FarmingWindow>)
    ensures r.Returned? <==> o.Ok?
    ensures o.Ok? ==> r.value == FarmingWindow(o.value.startTime, o.value.endTime)
    ensures o.HttpErr? ==> r.message == HttpMessage(o.status, o.message, "Failed to start farming")
    ensures o.NoResponse? ==> r.message == NetworkError
  {
    match o
    case Ok(data) => Returned(FarmingWindow(data.startTime, data.endTime))
    case HttpErr(status, message) => Thrown(HttpMessage(status, message, "Failed to start farming"))
    case NoResponse => Thrown(NetworkError)
  }

  /** scripts/apis.js:187-201. */
  function GetTasks(o: Outcome<seq<Tasks.Section>>): (r: Result<seq<Tasks.Section>>)
    ensures r.Returned? <==> o.Ok?
    ensures o.Ok? ==> r.value == o.value
    ensures o.HttpErr? ==> r.message == HttpMessage(o.status, o.message, "Failed to get tasks")
    ensures o.NoResponse? ==> r.message == NetworkError
  {
    match o
    case Ok(data) => Returned(data)
    case HttpErr(status, message) => Thrown(HttpMessage(status, message, "Failed to get tasks"))
    case NoResponse => Thrown(NetworkError)
  }

  /** scripts/apis.js:203-217: true exactly when the task is now started. */
  function StartTaskAction(o: Outcome<TaskBody>): (r: Result<bool>)
    ensures r.Returned? <==> o.Ok?
    ensures o.Ok? ==> (r.value <==> o.value.status == Tasks.Started)
    ensures o.HttpErr? ==> r.message == HttpMessage(o.status, o.message, "Failed to start task")
    ensures o.NoResponse? ==> r.message == NetworkError
  {
    match o
    case Ok(data) => Returned(data.status == Tasks.Started)
    case HttpErr(status, message) => Thrown(HttpMessage(status, message, "Failed to start task"))
    case NoResponse => Thrown(NetworkError)
  }

  /** scripts/apis.js:219-233: true exactly when the task is now finished. */
  function ClaimTaskAction(o: Outcome<TaskBody>): (r: Result<bool>)
    ensures r.Returned? <==> o.Ok?
    ensures o.Ok? ==> (r.value <==> o.value.status == Tasks.Finished)
    ensures o.HttpErr? ==> r.message == HttpMessage(o.status, o.message, "Failed to claim task")
    ensures o.NoResponse? ==> r.message == NetworkError
  {
    match o
    case Ok(data) => Returned(data.status == Tasks.Finished)
    case HttpErr(status, message) => Thrown(HttpMessage(status, message, "Failed to claim task"))
    case NoResponse => Thrown(NetworkError)
  }

  /** scripts/apis.js:235-252: true exactly when the task is now ready to be claimed. */
  function ValidateTaskAction(o: Outcome<TaskBody>): (r: Result<bool>)
    ensures r.Returned? <==> o.Ok?
    ensures o.Ok? ==> (r.value <==> o.value.status == Tasks.ReadyForClaim)
    ensures o.HttpErr? ==> r.message == HttpMessage(o.status, o.message, "Failed to validate task")
    ensures o.NoResponse? ==> r.message == NetworkError
  {
    match o
    case Ok(data) => Returned(data.status == Tasks.ReadyForClaim)
    case HttpErr(status, message) => Thrown(HttpMessage(status, message, "Failed to validate task"))
    case NoResponse => Thrown(NetworkError)
  }
}
