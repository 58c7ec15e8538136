# Telegram ID Finder: a Dafny model of its core

Telegram ID Finder is a small web tool. It logs in to Telegram through the
Telethon client library, lists the account's groups and channels, lists the
people who recently posted in one of them, and turns a selection of chats and
senders into the `telegram:` section of a downstream `settings.yaml`.

This project models the deterministic logic inside that tool. Each Telethon
call becomes an outcome value passed in as a parameter (for example
`SignInOutcome`: `SignedIn(me)`, `PasswordNeeded`, `CodeInvalid`,
`CodeExpired`, `SignInError`). Each lazy Telethon iterator becomes the
sequence it yields.

- `Entities` holds the entity record, `_get_dialog_type` and `_get_display_name`.
- `Auth` holds the `AuthState` record. It also holds one pure transition
  function for each auth operation (`start`, `send_code`, `verify_code`,
  `logout`, `get_status`). Each function returns the new record and the
  result as a tagged variant. The record invariant (`Consistent`) is proved
  preserved by every transition.
- `Listing` holds the specification functions for `get_dialogs` (user chats
  dropped) and `get_messages_senders` (one entry per sender id, first-seen
  order, partial result when iteration fails). Their lemmas are here too.
- `Service` holds the class `TelegramService`. Its fields `hasClient` and
  `authState` stand for `_client` and `_auth_state`. Each state-changing
  method is proved equal to its `Auth` transition. `GetDialogs` is a
  filter loop and `GetMessagesSenders` a loop with a `seen` set; each is
  proved equal to its `Listing` function.
- `ConfigGen` models `generate_config`. A loop builds a map from chat id to
  senders, and a second loop emits the chat entries. The method is proved
  equal to a reference definition, and the grouping properties are lemmas
  about that definition.
- `Endpoints` holds the `min(limit, 500)` clamp and the verify endpoint's
  rule for when to raise HTTP 400.

Python truthiness is modelled wherever the code relies on it:
- a `phone_number` counts as pending only when it is present and non-empty;
- a `password` is used only when it is present and non-empty;
- a `message.sender_id` counts only when it is present and not 0;
- a dialog name `""` becomes `"Unknown"`.

When the service asks for a second factor and no password is given, only
`needs_2fa` is set (app/telegram_service.py:233-239). `is_logged_in` keeps
its previous value, so a user who was already logged in stays logged in.

## Model

| member | source | states |
|---|---|---|
| `Entities.DialogTypeOf` | app/telegram_service.py:411-426 | A non-bot user gives USER. A bot user gives BOT. A broadcast channel gives CHANNEL. A basic chat or a non-broadcast channel gives GROUP. Every other entity gives UNKNOWN. Each of these holds in both directions. |
| `Entities.JoinWords` | app/telegram_service.py:442-443 | `" ".join`: the empty list gives `""`. The result starts with the first part. One part gives itself. Two parts give the first, a space, then the second. |
| `Entities.DisplayName` | app/telegram_service.py:428-448 | The preference chain. A present title wins. Otherwise the non-empty first and last names, joined by a space. Otherwise `@username`. Otherwise `"Unknown"`. |
| `Entities.DisplayNameEmptyOnlyForEmptyTitle` | app/telegram_service.py:428-448 | The display name is empty exactly when the entity's title is the empty string. Every fallback gives a non-empty name. |
| `Auth.Start` | app/telegram_service.py:116-125 | An already authorized connection replaces the record by the logged-in record: `user_id` is `me.id`, `user_name` is the display name of `me`, and no phone, hash or 2FA flag is set. Otherwise the record is unchanged. Consistency is preserved. |
| `Auth.SendCode` | app/telegram_service.py:135-166 | Runs `start` first when there is no client. Success exactly when the request succeeds. Then `phone_number` and `phone_code_hash` are set and the other fields are kept. A flood wait returns its seconds, and a failure returns its error; in both cases the record is left as `start` (or the caller) left it. |
| `Auth.Verify` | app/telegram_service.py:168-255 | No client or no pending phone: fails and the record is unchanged. Success exactly when the code sign-in succeeds, or when 2FA is required, a password is given and the password is accepted. Success logs in and clears `needs_2fa`, phone and hash. The returned user is the id and display name of the identity that the code sign-in or the password sign-in returned, and `user_id` and `user_name` are set from it. "Password required" happens exactly when 2FA is required and no password is given; it sets only `needs_2fa`. Every other failure leaves the record as it was. Invalid code, expired code, other error and rejected password each give their own result. |
| `Auth.Logout` | app/telegram_service.py:257-288 | No client: `NotConnected`. Success exactly when a client exists and log-out succeeds; the record then becomes the default record. A remote log-out error gives `LogoutFailed` with its error. On failure the record is unchanged. |
| `Auth.Status` | app/telegram_service.py:290-331 | No client: not logged in, record unchanged. Logged in exactly when a client exists and the live check says authorized; the user summary and the username come from `me`. An unauthorized client gives `NotLoggedIn`, and any other error gives `StatusCheckFailed` with its error. "Session expired" happens exactly on an unregistered auth key, and only that case resets the record to the default. |
| `Auth.SendCodeEnablesVerify` | app/telegram_service.py:149-191 | After a successful code request for a non-empty phone, verification no longer fails with "no pending verification". |
| `Auth.PasswordRetryLogsIn` | app/telegram_service.py:209-239 | "Password required" keeps the pending request and leaves `is_logged_in` as it was. A second call with a password that the service accepts then logs in and clears `needs_2fa`. |
| `Auth.StatusIgnoresCachedRecord` | app/telegram_service.py:304-320 | The reported status does not depend on the cached `AuthState`. |
| `Listing.InfoOf` | app/telegram_service.py:354-364 | The info of a kept dialog has its id and type. An empty dialog name becomes "Unknown", and a non-empty one is kept. The username and member count are the entity's own, or absent. |
| `Listing.ListedDialogs` | app/telegram_service.py:344-366 | No entry is of type USER. There are no more entries than dialogs. |
| `Listing.ListedDialogsSound` | app/telegram_service.py:344-366 | Each entry is the info of some dialog that is not a user chat. |
| `Listing.ListedDialogsAppend` | app/telegram_service.py:344-366 | Filtering distributes over concatenation, so iteration order is kept. |
| `Listing.ListedDialogsComplete` | app/telegram_service.py:349-364 | Every dialog that is not a user chat is listed. |
| `Listing.SenderInfoOf` | app/telegram_service.py:396-403 | A sender's info has its id, display name and username. It is flagged as a bot exactly when it is a bot user, as `getattr(sender, 'bot', False)` gives. |
| `Listing.UniqueSenders` | app/telegram_service.py:387-409 | At most one entry per message. |
| `Listing.UniqueSendersSound` | app/telegram_service.py:391-403 | Every entry is the resolved sender of a message that carries a truthy sender id seen for the first time. |
| `Listing.UniqueSendersComplete` | app/telegram_service.py:391-403 | Every first message of a sender id whose sender is resolved contributes an entry. |
| `Listing.UniqueSendersPrefix` | app/telegram_service.py:390-409 | Senders collected from a prefix of the messages are a prefix of those collected from all of them. This gives first-seen order and the partial result after an error. |
| `Listing.UniqueSendersIdsSeen` | app/telegram_service.py:392-403 | When message sender ids agree with the resolved senders' ids, every entry's id is in `seen_ids`. |
| `Listing.UniqueSendersDistinct` | app/telegram_service.py:392-403 | When message sender ids agree with the resolved senders' ids, entry ids are pairwise distinct. |
| `Listing.Window` | app/telegram_service.py:391 | `iter_messages(..., limit=limit)` yields a prefix of the chat's messages. It yields none for a limit of 0 or less. Otherwise it yields the `limit` most recent messages, or all of them when the chat has fewer. |
| `Listing.Delivered` | app/telegram_service.py:390-407 | The messages delivered before an iteration error are a prefix. Its length is the failure position, capped at the number of messages, so an error raised after the last message still delivers all of them. Without an error every message is delivered. |
| `Service.TelegramService.constructor` | app/telegram_service.py:78-92 | Starts with no client and the default record. |
| `Service.TelegramService.Start` | app/telegram_service.py:104-125 | Creates the client. The new record is `Auth.Start` of the old one. The invariant is kept. |
| `Service.TelegramService.SendCode` | app/telegram_service.py:135-166 | A client exists afterwards. The new record and the result are those of `Auth.SendCode`. |
| `Service.TelegramService.VerifyCode` | app/telegram_service.py:168-255 | The new record and the result are those of `Auth.Verify`. The client is unchanged. |
| `Service.TelegramService.Logout` | app/telegram_service.py:257-288 | The new record and the result are those of `Auth.Logout`. |
| `Service.TelegramService.GetStatus` | app/telegram_service.py:290-331 | The new record and the result are those of `Auth.Status`. |
| `Service.TelegramService.GetDialogs` | app/telegram_service.py:333-366 | Empty without a client or authorization. Otherwise the loop with its `continue` on USER returns `ListedDialogs`. |
| `Service.TelegramService.GetMessagesSenders` | app/telegram_service.py:368-409 | Empty without a client or authorization. Otherwise the loop with its `seen_ids` set returns `UniqueSenders` of the messages delivered from the limit window. |
| `ConfigGen.SendersWithKey` | app/main.py:290-298 | A group has no more entries than there are senders. |
| `ConfigGen.SendersWithKeyTrace` | app/main.py:290-298 | Every entry of a group is the `{id, name}` projection of a sender with that `chat_id`. A missing name becomes `""`. |
| `ConfigGen.SendersWithKeyAppend` | app/main.py:290-298 | Grouping distributes over concatenation: input order is kept and duplicates pass through. |
| `ConfigGen.SendersWithKeyComplete` | app/main.py:290-298 | Every sender with that `chat_id` is in its group. |
| `ConfigGen.SendersWithKeyEmpty` | app/main.py:290-298 | A group is empty exactly when no sender has that `chat_id`. |
| `ConfigGen.SendersWithKeySkip` | app/main.py:290-298 | Removing a sender with another `chat_id` leaves a group unchanged. |
| `ConfigGen.ChatConfigFor` | app/main.py:301-312 | A chat entry keeps the chat's id. Its name is the chat's name, or `""` when missing. It has `senders` exactly when some sender has that chat's id, and then `senders` is that chat's group. |
| `ConfigGen.ConfigFor` | app/main.py:283-312 | One entry per input chat, in input order. |
| `ConfigGen.ConfigKeepsChatIds` | app/main.py:301-312 | The output chats have the input's length and the input's ids in the same order. |
| `ConfigGen.OrphanSenderIgnored` | app/main.py:290-312 | A sender whose `chat_id` matches no chat appears nowhere: removing it leaves the output unchanged. |
| `ConfigGen.TwoChatsOneSender` | app/main.py:276-325 | Chats 1 "A" and 2 "B" with sender 10 "X" of chat 1: only chat 1 gets `senders: [{10, "X"}]`. |
| `ConfigGen.GenerateConfig` | app/main.py:276-325 | The map-building loop and the emission loop produce exactly `ConfigFor` of the input. |
| `Endpoints.ClampLimit` | app/main.py:262-263 | The limit used is at most 500 and at most the requested limit. It equals one of the two. |
| `Endpoints.SenderListingBounded` | app/main.py:262-265 | Whatever limit is requested, the sender listing has at most 500 entries. It has no more than the requested limit (none for a limit of 0 or less) and no more than the chat's messages. |
| `Endpoints.VerifyReplyOf` | app/main.py:178-183 | The verify endpoint passes the result through exactly for a successful login or a pending 2FA request. Every other result becomes HTTP 400. |

## Left out

- Telethon itself is not modelled. This covers connecting, sending the code request, signing in, logging out, checking authorization, `get_me`, and iterating dialogs and messages. Each appears only as an outcome parameter or as the sequence it yields.
- `Listing.Window`: it assumes Telethon's `limit` behaviour, that is, the `min(limit, available)` most recent messages and none for a limit of 0 or less. Telethon is not part of this model.
- `Auth.Verify`: a `get_me` that raises after a successful sign-in is folded into the outcome of that sign-in. After the code sign-in it is part of `SignInOutcome` and gives the generic `LoginFailed` (app/telegram_service.py:251-255). After the password sign-in it is part of `PasswordOutcome`, so it is a `PasswordRejected` and gives `InvalidPassword` (app/telegram_service.py:212-232).
- `Auth.Start`: creating the client from credentials and `connect()` are left out. So is a connection failure raised from `start`, which `send_code` does not catch.
- `Service.TelegramService.GetDialogs` and `Service.TelegramService.GetMessagesSenders`: an exception from `is_user_authorized` or from `iter_dialogs` propagates to the caller in the code. The model does not represent these failures.
- `Listing.UniqueSendersDistinct`: the code deduplicates by `message.sender_id` but reports `sender.id`. Telethon marks channel ids differently from raw ids, so distinct output ids are proved only when the two ids agree.
- `Service.TelegramService.Logout`: the session file is removed with `os.path.exists`/`os.remove`. That file-system I/O is left out. So is the case where it raises after the record was reset; that case reports a failed logout.
- Result messages, including their bilingual text, are tagged variants. A flood wait carries its seconds, and a generic failure carries its error text.
- The YAML text made by `yaml.dump` is left out. Only the structured `config` value is modelled. When two input chats share an id, they share one Python list, which YAML would print as an anchor and an alias; the model sees two equal values.
- Request validation is left out. This covers a missing `id` key (a `KeyError`), an explicit `null` name (passed through), and ids of mixed Python types (compared with Python equality). Chat and sender ids are integers, names are optional strings, and `chat_id` is an optional integer.
- Entities are records of the attributes the code inspects. A `title` attribute whose value is `None` is not modelled.
- The following are HTTP-layer code and are left out:
  - FastAPI routing and HTML templates;
  - `lifespan`, `stop()`, environment loading and the module-level service singleton with its getter and setter;
  - the 503 error when there is no service;
  - the send-code endpoint building a new service from credentials, and its 400 on failure;
  - the logged-in checks in the dialog endpoints.
- async/await and concurrent use are left out. The auth flow takes no lock, and the model treats calls as sequential.
