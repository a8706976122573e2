# Telegram number-rental bot: session and access model

`bot.py` is a Telegram bot that lets a user link a telephony-provider account and rent
one phone number through it. It keeps three kinds of state:
- `user_sessions` maps a Telegram user id to the account SID, the secret, a live provider
  client and the number currently rented.
- A per-user "has completed all joins" flag caches the membership gate. The gate requires
  the user to be in a channel and a group.
- A login conversation waits for the user's credentials.

This project models that state and the handlers that change it, in Dafny:

- `text.dfy` (`PyText`) covers the Python `str` operations the handlers rely on.
  These are `strip()`, `split()` with `maxsplit=1`, `split('_', 1)`, `in`, `lower()`
  and `isdigit()`, each with its exact edge cases: whitespace set, empty parts, and
  the separator inside the number.
- `credentials.dfy` (`Credentials`) covers what `receive_credentials` decides about a
  message before any provider call. A menu label is refused. A text that does not split
  into two parts is refused. A SID that is not "AC" followed by 32 more characters is
  refused. Anything else is a well-formed SID and secret.
- `purchase.dfy` (`Purchase`) covers the callback data on the buy buttons and its
  parser, the keyboard-building loop, the direct-purchase text test, and the two
  functions that explain a failed purchase from the provider's error text.
- `gate.dfy` (`Gate`) covers `check_all_memberships` and the cached gate of
  `ensure_user_has_joined`.
- `bot.dfy` (`TelegramBot`) holds the class `Bot`. Its fields are `sessions`,
  `joinFlags` and `awaitingCredentials`, plus a ghost log of every provider call with
  its answer. It has one method per handler. Each method states its whole new state.
  Its invariant `Valid` says two things:
  - every session's SID and secret passed the login checks;
  - every recorded number is the one the provider's most recent provisioning answer for
    that user left rented (`NumbersBacked`).

The provider (account fetch, number search, purchase, listing, delete) and Telegram's
membership answers are inputs to the handlers: `FetchResult`, `SearchResult`,
`CreateResult`, `ListResult`, `MembershipReply`. Each handler is one atomic step. Each
reply is a datatype value standing for the message the handler sends.

The code keeps `user_sessions` in memory only (bot.py:18), and the persistence setup
at bot.py:493-496 is commented out, so the model has no snapshot and no round-trip
property.

## Model

| member | source | states |
|---|---|---|
| PyText.IsSpace | bot.py:225 | a character is whitespace exactly when it is one of the 29 characters CPython's `str.isspace()` accepts |
| PyText.StartsWith | bot.py:237 | the text starts with the prefix exactly when the prefix is no longer than the text and equals the text's first characters |
| PyText.Strip | bot.py:225 | the result is empty exactly when the input is all whitespace, is a slice of the input with only whitespace cut from either end, and neither starts nor ends with whitespace |
| PyText.StripSurrounded | bot.py:225 | whitespace, then a core with no surrounding whitespace, then whitespace, strips to exactly that core |
| PyText.SplitOnce | bot.py:236 | at most two parts, none empty, none at all exactly for an all-whitespace text; the first part has no whitespace and the second is a suffix of the input that starts with a non-space |
| PyText.SplitOnceJoin | bot.py:236 | a word, a whitespace run and a remainder starting with a non-space split back into the word and the whole remainder, inner whitespace kept |
| PyText.SplitOnceWord | bot.py:236 | a single word splits into one part, so unpacking it into two names fails |
| PyText.SplitOnceTwo | bot.py:236 | two parts come from the text as leading whitespace, the first part, a non-empty whitespace run and the second part running to the end |
| PyText.SplitOnceOne | bot.py:236 | a single part is the text's only word, with only whitespace around it |
| PyText.StripUndone | bot.py:225 | the text is whitespace, its stripped form, and whitespace |
| PyText.SplitOnceAt | bot.py:331 | without the separator the text comes back whole; otherwise it splits at the first separator into a separator-free head and the rest |
| PyText.SplitOnceAtJoin | bot.py:331 | splitting at the separator undoes joining at it when the head is free of it |
| PyText.Contains | bot.py:353 | the empty needle is in every text, and a needle found is no longer than the text |
| PyText.ContainsIff | bot.py:353 | the substring test holds exactly when the needle occurs at some position |
| PyText.Lower | bot.py:353 | same length, each character lower-cased (ASCII letters) |
| PyText.IsDigits | bot.py:460 | holds exactly for a non-empty text made only of the ten ASCII digits |
| Credentials.IsAccountSid | bot.py:237 | a SID is accepted exactly when it is 34 characters long and starts with 'A', 'C' |
| Credentials.CheckCredentials | bot.py:225-242 | a menu button is reported exactly when the stripped text is a menu label; a malformed SID is a non-empty single word that is not "AC" plus 32 characters; accepted credentials are a well-shaped SID and a non-empty secret with no surrounding whitespace |
| Credentials.NotAMenuLabel | bot.py:24-28 | no text longer than 16 characters is a menu label |
| Credentials.MenuLabelRefused | bot.py:227-233 | a menu label, padded with any whitespace, is refused as a button press |
| Credentials.CredentialsAccepted | bot.py:225-247 | padded SID, whitespace, secret is accepted as exactly that SID and that secret |
| Credentials.MissingSecretRefused | bot.py:235-255 | a SID sent without a secret is refused as unreadable, not tried against the provider |
| Credentials.MalformedSidRefused | bot.py:235-241 | a padded first word that is not shaped like a SID, followed by more text, is refused as that malformed SID unless the whole text is a menu label |
| Credentials.SingleWordRefused | bot.py:235-255 | a padded single word that is not a menu label is refused as unreadable |
| Credentials.BlankRefused | bot.py:225-255 | a whitespace-only message is refused as unreadable |
| Credentials.TwoPartsAsTyped | bot.py:225-236 | a text that strips to two parts is whitespace, the first part, a non-empty whitespace run, the second part and whitespace |
| Credentials.OnePartAsTyped | bot.py:225-236 | a text that strips to one part is that word with whitespace around it |
| Credentials.AcceptedOnlyAsTyped | bot.py:225-247 | accepted credentials are exactly the SID and secret the user typed, separated by whitespace and with only whitespace around them |
| Credentials.MalformedOnlyAsTyped | bot.py:225-241 | a reported malformed SID is the first of two whitespace-separated words the user typed |
| Credentials.UnreadableOnlyAsTyped | bot.py:225-253 | an unreadable text is whitespace only, or one word with whitespace around it |
| Purchase.PurchaseCallbackData | bot.py:289 | the data is "purchase", then '_', then exactly the number |
| Purchase.ParsePurchaseCallbackData | bot.py:330-339 | unreadable exactly when the data has no '_'; an accepted request starts with '+' and is exactly what the button for that number carries |
| Purchase.PurchaseCallbackRoundTrip | bot.py:286-332 | the data on a button for any number starting with '+' parses back to that number, '_' inside the number included |
| Purchase.PurchaseKeyboard | bot.py:286-290 | one button per offered number, in order, each carrying "purchase_" plus that number and parsing back to it |
| Purchase.IsDirectPurchaseText | bot.py:460 | a typed text buys a number exactly when it is '+' followed by at least seven ASCII digits |
| Purchase.ClassifyPurchaseError | bot.py:353-358 | the button path never asks for an area code |
| Purchase.ClassifyDirectPurchaseError | bot.py:474-477 | the direct path never says the number is no longer available |
| Purchase.LowerContainsIff | bot.py:353 | the lower-cased substring test holds exactly when the phrase occurs in the message in any letter case |
| Purchase.Mentions | bot.py:353 | the phrase is mentioned exactly when it occurs in the message in any letter case |
| Purchase.ClassifyPurchaseErrorSpec | bot.py:353-358 | button path, first match wins: uniqueness or already-provisioned means already owned, else not-be-found or not-available means no longer available, else generic; letter case ignored |
| Purchase.ClassifyDirectPurchaseErrorSpec | bot.py:474-477 | direct path: already owned as on the button path, else the area-code sentence (letter case kept) asks for an area code, else generic |
| Purchase.AvailabilityExplainedOnlyOnButtonPath | bot.py:353-477 | an error that only says the number is not available or cannot be found is explained as such after a button press but generically after a typed number |
| Gate.CheckAllMemberships | bot.py:64-104 | joined exactly when both communities report a status other than restricted, left or banned; any error or missing bot means not joined |
| Gate.FailsClosed | bot.py:77-101 | a failed or impossible query for either community denies access |
| Gate.HasCompletedJoins | bot.py:152 | a user with no flag has not completed the joins; otherwise the flag decides |
| Gate.GatePasses | bot.py:152-162 | a set flag passes without asking; otherwise the user passes exactly when both communities say joined, so a failed query denies |
| Gate.GateFlags | bot.py:140-162 | afterwards the user's flag says whether the gate passed; a set flag is left as it is, Telegram is not consulted, and no other user's flag changes |
| Gate.GateSticky | bot.py:152-153 | once through, a user passes every later gate whatever Telegram would answer, with no flag change |
| TelegramBot.HasNumber | bot.py:323 | a session holds a number exactly when its number is set and is not the empty string |
| TelegramBot.LastProvisionedAppend | bot.py:18 | a new provider call changes a user's last provisioned number only when it rents or releases a number for that user |
| TelegramBot.LastProvisionedIff | bot.py:346-442 | the last provisioned number is `n` exactly when a create returned `n` and no later call for that user released or replaced it |
| TelegramBot.HeldNumberWasBought | bot.py:18 | under the invariant, every recorded number was returned by a create that nothing since released |
| TelegramBot.NumbersBackedUntouched | bot.py:18 | a call that rents or releases nothing for a user with a number keeps every number backed |
| TelegramBot.NumbersBackedCreated | bot.py:346 | recording the number a successful create returned keeps every number backed |
| TelegramBot.NumbersBackedCleared | bot.py:435-442 | forgetting a user's number on a call about that user only keeps every number backed |
| TelegramBot.SessionAdded | bot.py:247 | a fresh session with no number keeps the invariant |
| TelegramBot.WithNumber | bot.py:346 | only the given user's number changes; credentials and other users stay as they were |
| TelegramBot.Bot.constructor | bot.py:18 | no sessions, no flags, no conversation, no provider call; the invariant holds |
| TelegramBot.Bot.EnsureUserHasJoined | bot.py:140-162 | passes exactly when the flag was set or both communities say joined; the flags become the gate's result |
| TelegramBot.Bot.VerifyAllJoins | bot.py:177-209 | always asks Telegram again and overwrites the flag with the answer, so a user who has left loses access here |
| TelegramBot.Bot.LoginCommand | bot.py:212-221 | a gate failure or an existing session ends the conversation; otherwise it waits for credentials; sessions are not touched |
| TelegramBot.Bot.ReceiveCredentials | bot.py:223-259 | every path ends the conversation; a menu label, an unreadable text or a malformed SID changes nothing and calls nothing; a well-formed pair calls the provider once and creates a session with no number exactly when the provider accepts; a `ValueError` from the provider is answered as unreadable |
| TelegramBot.Bot.AnswerCredentials | bot.py:228-259 | the outcome of a checked text: a menu label, an unreadable text or a malformed SID changes nothing and calls nothing; well-formed credentials are tried once and create a session with no number exactly when the provider accepts; a `ValueError` is answered as unreadable, any other failure as a failed login |
| TelegramBot.Bot.SignIn | bot.py:244-259 | one account fetch is logged; the session, with no number, is written only when it succeeded; a `ValueError` is answered as unreadable credentials and any other exception as a failed login |
| TelegramBot.Bot.Logout | bot.py:261-268 | behind the gate, removes exactly this user's session |
| TelegramBot.Bot.Buy | bot.py:270-301 | no provider call without the gate and a session; otherwise one search, answered by an apology or by one button per number, whether or not the user holds a number |
| TelegramBot.Bot.PurchaseNumber | bot.py:303-359 | a user who holds a number gets no provider call and no change; an unreadable or invalid request changes nothing; a valid one issues one create, records the returned number on success and leaves the session on failure with the classified reason |
| TelegramBot.Bot.Create | bot.py:341-359 | one create is logged; success records the number returned; failure changes no session and is explained by the path's classifier |
| TelegramBot.Bot.RemoveNumber | bot.py:386-404 | asks to confirm removal of the held number; no state other than the gate flag changes |
| TelegramBot.Bot.ConfirmRemove | bot.py:406-449 | a stale request changes nothing; on "yes" a listing failure changes nothing, a number the provider no longer lists is forgotten just as after a successful delete, and a failed delete keeps it; "no" and any other data change nothing |
| TelegramBot.Bot.HandleText | bot.py:452-483 | a logged-in user's stripped text of '+' and seven or more digits buys that number unless one is held (then no provider call); any other text is answered as not understood and changes nothing |

## Left out

- Telegram transport: the text of replies, keyboards, message edits, callback answers and `send_join_prompt`. Each reply is a datatype value.
- The provider SDK: every provider answer is an input to the handler, and the live client object held in a session is not stored.
- `start` and `show_messages_handler`: besides reading the session table and sending messages, they change only the join flag, exactly as `EnsureUserHasJoined` does (bot.py:170, bot.py:362).
- Handler registration and dispatch: the regex filters, the ConversationHandler table, polling, the keep-alive web server and startup configuration. `ReceiveCredentials` requires the user to be in the credentials state, which is the dispatch table's routing.
- Logging.
- Concurrency: each handler is one atomic step. The handlers' awaits between reading and writing `user_sessions` are not interleaved.
- Persistence: the code has none.
- An update or callback with no sender, and the early replies for that case (bot.py:141-149, bot.py:179-182, bot.py:305-308, bot.py:408-411).
- Exceptions raised by Telegram calls inside the handlers' `try` blocks. One example is the message edit at bot.py:436 failing before the number is cleared at bot.py:437. The model assumes every Telegram call succeeds.
- The `if not keyboard` branch at bot.py:292-294: it cannot be taken once the list of numbers is non-empty, and `Buy` shows the keyboard is as long as the list.
- The two callback handlers pass the callback query itself to the gate. Whether the Telegram library's query object supplies the sender the gate reads is not part of this model; the model gives the gate the sender's id.
- PyText.Lower: lower-cases ASCII letters only, because the phrases compared against are ASCII; Python's `lower()` also folds other scripts.
- PyText.IsDigits: accepts ASCII digits only, while Python's `isdigit()` also accepts other Unicode digits such as superscripts.
- TelegramBot.Bot.HandleText: the session's client handle is always present here, so the test for it at bot.py:460 always holds.
