/** `TelegramService`: the one object whose fields the source updates in
    place (app/telegram_service.py). `hasClient` stands for `_client` being
    set; `authState` is `_auth_state`. Each Telethon call is an outcome
    parameter; each method is proved against the pure transition or listing
    function that specifies it. */
module Service {
  import opened Common
  import opened Entities
  import opened Auth
  import opened Listing

  class TelegramService {
    var hasClient: bool
    var authState: AuthState

    /** The record is consistent, and it stays at its defaults until a
        client exists (every operation without a client leaves it alone). */
    ghost predicate Valid()
      reads this
    {
      Consistent(authState) && (!hasClient ==> authState == Initial)
    }

    /** `__init__`: no client, default record. */
    constructor ()
      ensures Valid() && !hasClient && authState == Initial
    {
      hasClient := false;
      authState := Initial;
    }

    /** `start`: creates the client if needed; an already authorized
        connection (`authorizedAs`) logs the record in. */
    method Start(authorizedAs: Option<Entity>)
      requires Valid()
      modifies this
      ensures Valid() && hasClient
      ensures authState == Auth.Start(old(authState), authorizedAs)
    {
      hasClient := true;
      if authorizedAs.Some? {
        authState := LoggedInAs(authorizedAs.value);
      }
    }

    /** `send_code`. `startAs` is what `start` finds when it has to run. */
    method SendCode(phone: string, startAs: Option<Entity>, outcome: SendCodeOutcome)
      returns (r: SendCodeResult)
      requires Valid()
      modifies this
      ensures Valid() && hasClient
      ensures Transition(authState, r) == Auth.SendCode(old(hasClient), old(authState), phone, startAs, outcome)
    {
      if !hasClient {
        Start(startAs);
      }
      match outcome {
        case CodeRequested(hash) =>
          authState := authState.(phoneCodeHash := Some(hash));
          authState := authState.(phoneNumber := Some(phone));
          r := CodeSent;
        case FloodWait(seconds) =>
          r := TooManyRequests(seconds);
        case SendCodeError(error) =>
          r := SendCodeFailed(error);
      }
    }

    /** `verify_code`. `signIn` is what the code sign-in does;
        `passwordSignIn` what the password sign-in does if it is attempted. */
    method VerifyCode(password: Option<string>, signIn: SignInOutcome, passwordSignIn: PasswordOutcome)
      returns (r: VerifyResult)
      requires Valid()
      modifies this
      ensures Valid() && hasClient == old(hasClient)
      ensures Transition(authState, r) == Verify(old(hasClient), old(authState), password, signIn, passwordSignIn)
    {
      if !hasClient || !Truthy(authState.phoneNumber) {
        return NoPendingVerification;
      }
      match signIn {
        case SignedIn(me) =>
          authState := LoggedInAs(me);
          r := LoginSucceeded(SummaryOf(me));
        case PasswordNeeded =>
          if Truthy(password) {
            match passwordSignIn {
              case PasswordAccepted(me) =>
                authState := LoggedInAs(me);
                r := LoginSucceeded(SummaryOf(me));
              case PasswordRejected(error) =>
                r := InvalidPassword(error);
            }
          } else {
            authState := authState.(needs2fa := true);
            r := PasswordRequired;
          }
        case CodeInvalid =>
          r := InvalidCode;
        case CodeExpired =>
          r := ExpiredCode;
        case SignInError(error) =>
          r := LoginFailed(error);
      }
    }

    /** `logout` (the session-file removal is not modelled). */
    method Logout(outcome: LogoutOutcome) returns (r: LogoutResult)
      requires Valid()
      modifies this
      ensures Valid() && hasClient == old(hasClient)
      ensures Transition(authState, r) == Auth.Logout(old(hasClient), old(authState), outcome)
    {
      if !hasClient {
        return NotConnected;
      }
      match outcome {
        case LoggedOutRemotely =>
          authState := Initial;
          r := LoggedOut;
        case LogoutError(error) =>
          r := LogoutFailed(error);
      }
    }

    /** `get_status`. */
    method GetStatus(outcome: StatusOutcome) returns (r: StatusResult)
      requires Valid()
      modifies this
      ensures Valid() && hasClient == old(hasClient)
      ensures Transition(authState, r) == Status(old(hasClient), old(authState), outcome)
    {
      if !hasClient {
        return ClientNotInitialized;
      }
      match outcome {
        case Authorized(me) =>
          r := StatusLoggedIn(SummaryOf(me), me.username);
        case Unauthorized =>
          r := NotLoggedIn;
        case AuthKeyUnregistered =>
          authState := Initial;
          r := SessionExpired;
        case StatusError(error) =>
          r := StatusCheckFailed(error);
      }
    }

    /** `get_dialogs`: empty unless a client exists and is authorized;
        otherwise every dialog of `dialogs` that is not a user chat. */
    method GetDialogs(authorized: bool, dialogs: seq<Dialog>) returns (r: seq<DialogInfo>)
      ensures r == if hasClient && authorized then ListedDialogs(dialogs) else []
    {
      if !hasClient || !authorized {
        return [];
      }
      r := [];
      var i := 0;
      while i < |dialogs|
        invariant 0 <= i <= |dialogs|
        invariant r == ListedDialogs(dialogs[..i])
      {
        var d := dialogs[i];
        ListedDialogsAppend(dialogs[..i], [d]);
        assert dialogs[..i + 1] == dialogs[..i] + [d];
        assert [d][..0] == [];
        i := i + 1;
        if DialogTypeOf(d.entity) == User {
          continue;
        }
        r := r + [InfoOf(d)];
      }
      assert dialogs[..i] == dialogs;
    }

    /** `get_messages_senders`: empty unless a client exists and is
        authorized; otherwise the unique senders of the messages delivered
        before the iteration fails (if it does) at position `failAt`. */
    method GetMessagesSenders(limit: int, authorized: bool, available: seq<Message>, failAt: Option<nat>)
      returns (senders: seq<SenderInfo>)
      ensures senders == if hasClient && authorized then UniqueSenders(Delivered(Window(available, limit), failAt)) else []
    {
      if !hasClient || !authorized {
        return [];
      }
      var messages := Window(available, limit);
      var seenIds: set<int> := {};
      senders := [];
      var i := 0;
      while i < |messages|
        invariant 0 <= i <= |messages|
        invariant failAt.None? || i <= failAt.value
        invariant seenIds == SeenIds(messages[..i])
        invariant senders == UniqueSenders(messages[..i])
      {
        if failAt == Some(i) {
          break;
        }
        var m := messages[i];
        assert messages[..i + 1][..i] == messages[..i];
        if m.senderId.Some? && m.senderId.value != 0 && m.senderId.value !in seenIds {
          seenIds := seenIds + {m.senderId.value};
          if m.sender.Some? {
            senders := senders + [SenderInfoOf(m.sender.value)];
          }
        }
        i := i + 1;
      }
      assert messages[..|messages|] == messages;
      assert messages[..i] == Delivered(messages, failAt);
    }
  }
}
