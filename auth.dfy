/** The authentication state record of `TelegramService` and the pure
    transitions its auth operations make on it (app/telegram_service.py).
    Every Telethon call is replaced by an outcome value given as a parameter. */
module Auth {
  import opened Common
  import opened Entities

  /** `AuthState`: the cached login state and the pending code request. */
  datatype AuthState = AuthState(
    isLoggedIn: bool,
    phoneCodeHash: Option<string>,
    phoneNumber: Option<string>,
    needs2fa: bool,
    userId: Option<int>,
    userName: Option<string>)

  /** `AuthState()` with every field at its default. */
  const Initial := AuthState(false, None, None, false, None, None)

  /** The record built after a successful login as `me`. */
  function LoggedInAs(me: Entity): AuthState {
    AuthState(true, None, None, false, Some(me.id), Some(DisplayName(me)))
  }

  /** `verify_code` proceeds only with a client and a truthy `phone_number`. */
  predicate HasPending(a: AuthState) {
    Truthy(a.phoneNumber)
  }

  /** The record's own invariant: hash and number are set together, and the
      user's id and name are known exactly when logged in. */
  predicate Consistent(a: AuthState) {
    && (a.phoneNumber.Some? <==> a.phoneCodeHash.Some?)
    && (a.isLoggedIn <==> a.userId.Some?)
    && (a.userId.Some? <==> a.userName.Some?)
  }

  /** A new auth record together with what the operation returns. */
  datatype Transition<R> = Transition(auth: AuthState, result: R)

  // ---------------------------------------------------------------- start

  /** `start`: when the connection is already authorized as `me`, the record
      is replaced by the logged-in record; otherwise it is kept. */
  function Start(a: AuthState, authorizedAs: Option<Entity>): (r: AuthState)
    ensures authorizedAs.Some? ==> r.isLoggedIn && r.userId == Some(authorizedAs.value.id)
    ensures authorizedAs.Some? ==> r.userName == Some(DisplayName(authorizedAs.value))
    ensures authorizedAs.Some? ==> r.phoneNumber.None? && r.phoneCodeHash.None? && !r.needs2fa
    ensures authorizedAs.None? ==> r == a
    ensures Consistent(a) ==> Consistent(r)
  {
    match authorizedAs
    case Some(me) => LoggedInAs(me)
    case None => a
  }

  // ------------------------------------------------------------ send_code

  /** What `send_code_request` does. */
  datatype SendCodeOutcome =
    | CodeRequested(phoneCodeHash: string)
    | FloodWait(seconds: int)            // FloodWaitError
    | SendCodeError(error: string)       // any other exception

  datatype SendCodeResult =
    | CodeSent
    | TooManyRequests(waitSeconds: int)
    | SendCodeFailed(error: string)
  {
    predicate Success() { CodeSent? }
  }

  /** `send_code`: starts the client first when there is none, then records
      the phone number and code hash only when the request succeeded. */
  function SendCode(hasClient: bool, a: AuthState, phone: string,
                    startAs: Option<Entity>, outcome: SendCodeOutcome): (t: Transition<SendCodeResult>)
    ensures var a0 := if hasClient then a else Start(a, startAs);
      && (t.result.Success() <==> outcome.CodeRequested?)
      && (outcome.CodeRequested? ==>
            && t.auth.phoneNumber == Some(phone)
            && t.auth.phoneCodeHash == Some(outcome.phoneCodeHash)
            && t.auth.isLoggedIn == a0.isLoggedIn && t.auth.needs2fa == a0.needs2fa
            && t.auth.userId == a0.userId && t.auth.userName == a0.userName)
      && (outcome.FloodWait? ==> t == Transition(a0, TooManyRequests(outcome.seconds)))
      && (outcome.SendCodeError? ==> t == Transition(a0, SendCodeFailed(outcome.error)))
    ensures Consistent(a) ==> Consistent(t.auth)
  {
    var a0 := if hasClient then a else Start(a, startAs);
    match outcome
    case CodeRequested(hash) =>
      Transition(a0.(phoneCodeHash := Some(hash), phoneNumber := Some(phone)), CodeSent)
    case FloodWait(seconds) => Transition(a0, TooManyRequests(seconds))
    case SendCodeError(error) => Transition(a0, SendCodeFailed(error))
  }

  // ---------------------------------------------------------- verify_code

  /** What `sign_in(phone, code, phone_code_hash)` followed by `get_me` does. */
  datatype SignInOutcome =
    | SignedIn(me: Entity)
    | PasswordNeeded                     // SessionPasswordNeededError
    | CodeInvalid                        // PhoneCodeInvalidError
    | CodeExpired                        // PhoneCodeExpiredError
    | SignInError(error: string)         // any other exception

  /** What `sign_in(password=...)` followed by `get_me` does. */
  datatype PasswordOutcome =
    | PasswordAccepted(me: Entity)
    | PasswordRejected(error: string)

  /** The `user` object returned to the caller. */
  datatype UserSummary = UserSummary(id: int, name: string)

  function SummaryOf(me: Entity): UserSummary {
    UserSummary(me.id, DisplayName(me))
  }

  datatype VerifyResult =
    | NoPendingVerification
    | LoginSucceeded(user: UserSummary)
    | PasswordRequired                   // the only result carrying `needs_2fa`
    | InvalidPassword(error: string)
    | InvalidCode
    | ExpiredCode
    | LoginFailed(error: string)
  {
    predicate Success() { LoginSucceeded? }
    predicate Needs2fa() { PasswordRequired? }
  }

  /** `verify_code`. Without a client or a pending phone number it fails at
      once. A code sign-in, or a password sign-in after the service asked for
      a second factor, replaces the record by the logged-in one. A second
      factor asked for without a (truthy) password only sets `needs_2fa`.
      Every other failure leaves the record as it was. */
  function Verify(hasClient: bool, a: AuthState, password: Option<string>,
                  signIn: SignInOutcome, passwordSignIn: PasswordOutcome): (t: Transition<VerifyResult>)
    ensures !hasClient || !HasPending(a) ==> t == Transition(a, NoPendingVerification)
    ensures t.result.Success() <==>
              && hasClient && HasPending(a)
              && (|| signIn.SignedIn?
                  || (signIn.PasswordNeeded? && Truthy(password) && passwordSignIn.PasswordAccepted?))
    ensures t.result.Success() ==>
              && t.auth.isLoggedIn && !t.auth.needs2fa
              && t.auth.phoneNumber.None? && t.auth.phoneCodeHash.None?
              && t.auth.userId == Some(t.result.user.id)
              && t.auth.userName == Some(t.result.user.name)
    ensures t.result.Needs2fa() <==>
              hasClient && HasPending(a) && signIn.PasswordNeeded? && !Truthy(password)
    ensures t.result.Needs2fa() ==> t.auth == a.(needs2fa := true)
    ensures !t.result.Success() && !t.result.Needs2fa() ==> t.auth == a
    ensures hasClient && HasPending(a) && signIn.SignedIn? ==>
              t.result == LoginSucceeded(SummaryOf(signIn.me))
    ensures hasClient && HasPending(a) && signIn.PasswordNeeded? && Truthy(password)
              && passwordSignIn.PasswordAccepted? ==>
              t.result == LoginSucceeded(SummaryOf(passwordSignIn.me))
    ensures hasClient && HasPending(a) ==>
              && (signIn.CodeInvalid? ==> t.result == InvalidCode)
              && (signIn.CodeExpired? ==> t.result == ExpiredCode)
              && (signIn.SignInError? ==> t.result == LoginFailed(signIn.error))
              && (signIn.PasswordNeeded? && Truthy(password) && passwordSignIn.PasswordRejected? ==>
                    t.result == InvalidPassword(passwordSignIn.error))
    ensures Consistent(a) ==> Consistent(t.auth)
  {
    if !hasClient || !HasPending(a) then Transition(a, NoPendingVerification)
    else
      match signIn
      case SignedIn(me) => Transition(LoggedInAs(me), LoginSucceeded(SummaryOf(me)))
      case PasswordNeeded =>
        if Truthy(password) then
          match passwordSignIn
          case PasswordAccepted(me) => Transition(LoggedInAs(me), LoginSucceeded(SummaryOf(me)))
          case PasswordRejected(error) => Transition(a, InvalidPassword(error))
        else
          Transition(a.(needs2fa := true), PasswordRequired)
      case CodeInvalid => Transition(a, InvalidCode)
      case CodeExpired => Transition(a, ExpiredCode)
      case SignInError(error) => Transition(a, LoginFailed(error))
  }

  // --------------------------------------------------------------- logout

  /** What `log_out` does. */
  datatype LogoutOutcome = LoggedOutRemotely | LogoutError(error: string)

  datatype LogoutResult = NotConnected | LoggedOut | LogoutFailed(error: string) {
    predicate Success() { LoggedOut? }
  }

  /** `logout`: without a client it fails; a successful log-out resets the
      record to its defaults; a failed one leaves it as it was. */
  function Logout(hasClient: bool, a: AuthState, outcome: LogoutOutcome): (t: Transition<LogoutResult>)
    ensures !hasClient ==> t == Transition(a, NotConnected)
    ensures t.result.Success() <==> hasClient && outcome.LoggedOutRemotely?
    ensures hasClient && outcome.LogoutError? ==> t.result == LogoutFailed(outcome.error)
    ensures t.auth == if t.result.Success() then Initial else a
    ensures Consistent(a) ==> Consistent(t.auth)
  {
    if !hasClient then Transition(a, NotConnected)
    else
      match outcome
      case LoggedOutRemotely => Transition(Initial, LoggedOut)
      case LogoutError(error) => Transition(a, LogoutFailed(error))
  }

  // ----------------------------------------------------------- get_status

  /** What `is_user_authorized` (and, when authorized, `get_me`) does. */
  datatype StatusOutcome =
    | Authorized(me: Entity)
    | Unauthorized
    | AuthKeyUnregistered                // AuthKeyUnregisteredError
    | StatusError(error: string)         // any other exception

  datatype StatusResult =
    | ClientNotInitialized
    | StatusLoggedIn(user: UserSummary, username: Option<string>)
    | NotLoggedIn
    | SessionExpired
    | StatusCheckFailed(error: string)
  {
    predicate IsLoggedIn() { StatusLoggedIn? }
  }

  /** `get_status`: reports the live authorization, not the cached record;
      only an unregistered auth key touches the record, resetting it. */
  function Status(hasClient: bool, a: AuthState, outcome: StatusOutcome): (t: Transition<StatusResult>)
    ensures !hasClient ==> t == Transition(a, ClientNotInitialized)
    ensures t.result.IsLoggedIn() <==> hasClient && outcome.Authorized?
    ensures t.result.IsLoggedIn() ==>
              t.result.user == SummaryOf(outcome.me) && t.result.username == outcome.me.username
    ensures hasClient && outcome.Unauthorized? ==> t.result == NotLoggedIn
    ensures hasClient && outcome.StatusError? ==> t.result == StatusCheckFailed(outcome.error)
    ensures t.result == SessionExpired <==> hasClient && outcome.AuthKeyUnregistered?
    ensures t.auth == if t.result == SessionExpired then Initial else a
    ensures Consistent(a) ==> Consistent(t.auth)
  {
    if !hasClient then Transition(a, ClientNotInitialized)
    else
      match outcome
      case Authorized(me) => Transition(a, StatusLoggedIn(SummaryOf(me), me.username))
      case Unauthorized => Transition(a, NotLoggedIn)
      case AuthKeyUnregistered => Transition(Initial, SessionExpired)
      case StatusError(error) => Transition(a, StatusCheckFailed(error))
  }

  // ------------------------------------------------- properties of runs

  /** After a code request for a non-empty phone number succeeds, a
      verification no longer fails for want of a pending request. */
  lemma SendCodeEnablesVerify(hasClient: bool, a: AuthState, phone: string, startAs: Option<Entity>,
                              hash: string, password: Option<string>,
                              signIn: SignInOutcome, passwordSignIn: PasswordOutcome)
    requires phone != ""
    ensures var sent := SendCode(hasClient, a, phone, startAs, CodeRequested(hash));
            Verify(true, sent.auth, password, signIn, passwordSignIn).result != NoPendingVerification
  {
  }

  /** The retry the 2FA branch is there for: a verification that stopped at
      "password required" keeps the pending request, so calling again with
      a password the service accepts logs in and clears `needs_2fa`. */
  lemma PasswordRetryLogsIn(a: AuthState, noPassword: Option<string>, password: string,
                            unused: PasswordOutcome, me: Entity)
    requires HasPending(a) && !Truthy(noPassword) && password != ""
    ensures var first := Verify(true, a, noPassword, PasswordNeeded, unused);
            && first.result == PasswordRequired && first.auth.needs2fa && HasPending(first.auth)
            && first.auth.isLoggedIn == a.isLoggedIn
            && var second := Verify(true, first.auth, Some(password), PasswordNeeded, PasswordAccepted(me));
               second == Transition(LoggedInAs(me), LoginSucceeded(SummaryOf(me)))
  {
  }

  /** The live status does not depend on the cached record. */
  lemma StatusIgnoresCachedRecord(hasClient: bool, a: AuthState, b: AuthState, outcome: StatusOutcome)
    ensures Status(hasClient, a, outcome).result == Status(hasClient, b, outcome).result
  {
  }
}
