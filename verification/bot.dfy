/** The bot's per-user state and the handlers that change it (bot.py). Each handler is
    one atomic step; what Telegram and the telephony provider answer is passed in. */
module TelegramBot {
  import opened PyText
  import opened Credentials
  import opened Purchase
  import opened Gate

  datatype Option<T> = None | Some(value: T)

  /** An entry of `user_sessions`. The live provider client it also holds is not modelled. */
  datatype Session = Session(sid: string, auth: string, number: Option<string>)

  /** `session.get('number')` is truthy: a number is set and it is not empty. */
  predicate HasNumber(s: Session)
    ensures HasNumber(s) <==> s.number != None && s.number != Some("")
  {
    s.number.Some? && s.number.value != []
  }

  /** A session whose SID and secret passed the login checks. */
  predicate WellFormedSession(s: Session) {
    && IsAccountSid(s.sid) && NoSpace(s.sid)
    && s.auth != [] && !IsSpace(s.auth[0]) && !IsSpace(s.auth[|s.auth| - 1])
  }

  /** The state the login conversation is left in by a handler. */
  datatype Flow = End | AwaitingCredentials

  // What the provider answers, passed to the handlers as inputs.
  datatype FetchResult =
    | Fetched            // the provider returned the account
    | FetchValueError    // building the client or fetching raised `ValueError`
    | FetchRaised        // any other exception
  datatype SearchResult = SearchRaised | Offered(numbers: seq<string>)
  datatype CreateResult = Created(number: string) | CreateRaised(message: string)
  datatype ListResult = ListRaised | NoneListed | Listed(numberSid: string)

  /** A call the bot made to the provider, with the provider's answer. */
  datatype ProviderCall =
    | FetchAccount(user: UserId, sid: string, outcome: FetchResult)
    | SearchNumbers(user: UserId)
    | CreateNumber(user: UserId, requested: string, result: CreateResult)
    | ListOwned(user: UserId, number: string, listing: ListResult)
    | DeleteNumber(user: UserId, numberSid: string, ok: bool)

  /** What one provider call says about the number rented for a user. */
  datatype Holding = Holds(number: string) | Released | Untouched

  function EffectOn(c: ProviderCall, u: UserId): Holding {
    match c
    case CreateNumber(v, _, Created(n)) => if v == u then Holds(n) else Untouched
    case ListOwned(v, _, NoneListed) => if v == u then Released else Untouched
    case DeleteNumber(v, _, true) => if v == u then Released else Untouched
    case _ => Untouched
  }

  /** The number that the most recent provisioning call for `u` left rented: a successful
      create, unless a successful delete or a listing that no longer shows it came later. */
  function LastProvisioned(log: seq<ProviderCall>, u: UserId): Option<string> {
    if log == [] then None
    else
      match EffectOn(log[|log| - 1], u)
      case Holds(n) => Some(n)
      case Released => None
      case Untouched => LastProvisioned(log[..|log| - 1], u)
  }

  lemma LastProvisionedAppend(log: seq<ProviderCall>, c: ProviderCall, u: UserId)
    ensures LastProvisioned(log + [c], u) ==
      match EffectOn(c, u)
      case Holds(n) => Some(n)
      case Released => None
      case Untouched => LastProvisioned(log, u)
  {
    assert (log + [c])[..|log|] == log;
  }

  /** Call `i` of the log rented `n` for `u`, and no later call released or replaced it. */
  predicate HeldSince(log: seq<ProviderCall>, u: UserId, n: string, i: nat) {
    && i < |log| && EffectOn(log[i], u) == Holds(n)
    && forall j :: i < j < |log| ==> EffectOn(log[j], u) == Untouched
  }

  /** `LastProvisioned` names `n` exactly when a create that returned `n` for `u` is followed
      by no release and no other create for `u`. */
  lemma {:induction false} LastProvisionedIff(log: seq<ProviderCall>, u: UserId, n: string)
    ensures LastProvisioned(log, u) == Some(n) <==> exists i: nat :: HeldSince(log, u, n, i)
    decreases |log|
  {
    if log != [] {
      var last := |log| - 1;
      var init := log[..last];
      if exists i: nat :: HeldSince(log, u, n, i) {
        var i: nat :| HeldSince(log, u, n, i);
        if i < last {
          assert HeldSince(init, u, n, i);
        }
      }
      match EffectOn(log[last], u)
      case Holds(m) =>
        if m == n {
          assert HeldSince(log, u, n, last);
        }
      case Released =>
      case Untouched =>
        LastProvisionedIff(init, u, n);
        if exists i: nat :: HeldSince(init, u, n, i) {
          var i: nat :| HeldSince(init, u, n, i);
          assert HeldSince(log, u, n, i);
        }
    }
  }

  ghost predicate SessionsWellFormed(sessions: map<UserId, Session>) {
    forall u :: u in sessions ==> WellFormedSession(sessions[u])
  }

  /** A number is recorded for a user only while it is what the provider's most recent
      provisioning answer for that user left rented. */
  ghost predicate NumbersBacked(sessions: map<UserId, Session>, log: seq<ProviderCall>) {
    forall u :: u in sessions && sessions[u].number.Some? ==> LastProvisioned(log, u) == sessions[u].number
  }

  /** What the invariant promises about a user's recorded number: the provider's last
      provisioning answer for that user rented it, and nothing since released it. */
  lemma HeldNumberWasBought(sessions: map<UserId, Session>, log: seq<ProviderCall>, u: UserId)
    requires NumbersBacked(sessions, log)
    requires u in sessions && sessions[u].number.Some?
    ensures exists i: nat :: HeldSince(log, u, sessions[u].number.value, i)
  {
    LastProvisionedIff(log, u, sessions[u].number.value);
  }

  function WithNumber(sessions: map<UserId, Session>, u: UserId, number: Option<string>): (r: map<UserId, Session>)
    requires u in sessions
    ensures r.Keys == sessions.Keys && r[u].number == number
    ensures r[u].sid == sessions[u].sid && r[u].auth == sessions[u].auth
    ensures forall v :: v in sessions && v != u ==> r[v] == sessions[v]
  {
    sessions[u := sessions[u].(number := number)]
  }

  /** A call that touches no recorded number keeps every recorded number backed. */
  lemma {:induction false} NumbersBackedUntouched(sessions: map<UserId, Session>, log: seq<ProviderCall>, c: ProviderCall)
    requires NumbersBacked(sessions, log)
    requires forall u :: u in sessions && sessions[u].number.Some? ==> EffectOn(c, u) == Untouched
    ensures NumbersBacked(sessions, log + [c])
  {
    forall u | u in sessions && sessions[u].number.Some?
      ensures LastProvisioned(log + [c], u) == sessions[u].number
    {
      LastProvisionedAppend(log, c, u);
    }
  }

  /** Recording the number a successful create returned keeps every number backed. */
  lemma {:induction false} NumbersBackedCreated(sessions: map<UserId, Session>, log: seq<ProviderCall>,
                                               u: UserId, requested: string, number: string)
    requires NumbersBacked(sessions, log) && u in sessions
    ensures NumbersBacked(WithNumber(sessions, u, Some(number)), log + [CreateNumber(u, requested, Created(number))])
  {
    var after := WithNumber(sessions, u, Some(number));
    forall v | v in after && after[v].number.Some?
      ensures LastProvisioned(log + [CreateNumber(u, requested, Created(number))], v) == after[v].number
    {
      LastProvisionedAppend(log, CreateNumber(u, requested, Created(number)), v);
    }
  }

  /** Forgetting a user's number, on a call about that user only, keeps every number backed. */
  lemma {:induction false} NumbersBackedCleared(sessions: map<UserId, Session>, log: seq<ProviderCall>,
                                               u: UserId, c: ProviderCall)
    requires NumbersBacked(sessions, log) && u in sessions
    requires forall v :: v != u ==> EffectOn(c, v) == Untouched
    ensures NumbersBacked(WithNumber(sessions, u, None), log + [c])
  {
    var after := WithNumber(sessions, u, None);
    forall v | v in after && after[v].number.Some?
      ensures LastProvisioned(log + [c], v) == after[v].number
    {
      LastProvisionedAppend(log, c, v);
    }
  }

  /** Logging in with a fresh session, which holds no number, keeps the sessions valid. */
  lemma SessionAdded(sessions: map<UserId, Session>, log: seq<ProviderCall>, u: UserId, s: Session)
    requires SessionsWellFormed(sessions) && NumbersBacked(sessions, log)
    requires WellFormedSession(s) && s.number == None
    ensures SessionsWellFormed(sessions[u := s]) && NumbersBacked(sessions[u := s], log)
  {
  }

  /** The reply and the new sessions and provider log after checked credentials: refused
      texts change nothing and call nothing; well-formed credentials are tried once, and a
      session with no number is created exactly when the provider accepts them. A
      `ValueError` from the provider is answered like an unreadable text. */
  ghost predicate CredentialsAnswered(check: CredentialCheck, u: UserId, fetch: FetchResult,
                                      before: map<UserId, Session>, beforeCalls: seq<ProviderCall>,
                                      after: map<UserId, Session>, afterCalls: seq<ProviderCall>,
                                      reply: CredentialsReply)
  {
    match check
    case MenuButton => reply == PressedMenuButton && after == before && afterCalls == beforeCalls
    case NotTwoParts => reply == CredentialsUnreadable && after == before && afterCalls == beforeCalls
    case MalformedSid(sid) => reply == SidMalformed(sid) && after == before && afterCalls == beforeCalls
    case WellFormed(sid, auth) =>
      && afterCalls == beforeCalls + [FetchAccount(u, sid, fetch)]
      && match fetch
         case Fetched => reply == LoggedIn && after == before[u := Session(sid, auth, None)]
         case FetchValueError => reply == CredentialsUnreadable && after == before
         case FetchRaised => reply == LoginFailed && after == before
  }

  const ConfirmRemoveYes: string := "confirm_remove_yes"
  const ConfirmRemoveNo: string := "confirm_remove_no"

  // The outcome of each handler, standing for the message it sends.
  datatype LoginReply = LoginJoinPrompt | AlreadyLoggedIn | AskForCredentials
  datatype CredentialsReply =
    | PressedMenuButton | CredentialsUnreadable | SidMalformed(sid: string) | LoginFailed | LoggedIn
  datatype LogoutReply = LogoutJoinPrompt | LoggedOut | NotLoggedIn
  datatype BuyReply =
    | BuyJoinPrompt | BuyLoginFirst | SearchFailed | NoNumbersAvailable | PurchaseButtons(callbackData: seq<string>)
  datatype PurchaseReply =
    | PurchaseJoinPrompt | PurchaseLoginFirst | AlreadyHasNumber(current: string)
    | RequestUnreadable | RequestInvalid | Purchased(number: string)
    | PurchaseFailed(requested: string, reason: PurchaseFailure)
  datatype RemoveReply = RemoveJoinPrompt | RemoveLoginFirst | NoNumberToRemove | ConfirmRemoval(number: string)
  datatype ConfirmReply =
    | ConfirmJoinPrompt | RequestStale | NotOnAccount(number: string) | Removed(number: string)
    | RemovalFailed | RemovalCancelled | Ignored
  datatype TextReply =
    | TextJoinPrompt | DirectAlreadyHasNumber(current: string) | DirectPurchased(number: string)
    | DirectPurchaseFailed(requested: string, reason: PurchaseFailure) | NotUnderstood | Silent

  class Bot {
    /** `user_sessions`: the session of every logged-in user. */
    var sessions: map<UserId, Session>
    /** Each user's "has completed all joins" flag in `context.user_data`. */
    var joinFlags: map<UserId, bool>
    /** The users whose login conversation is waiting for their credentials. */
    var awaitingCredentials: set<UserId>
    /** Every provider call made so far, in order, with its answer. */
    ghost var calls: seq<ProviderCall>

    ghost predicate Valid()
      reads this
    {
      SessionsWellFormed(sessions) && NumbersBacked(sessions, calls)
    }

    constructor ()
      ensures Valid()
      ensures sessions == map[] && joinFlags == map[] && awaitingCredentials == {} && calls == []
    {
      sessions := map[];
      joinFlags := map[];
      awaitingCredentials := {};
      calls := [];
    }

    /** `ensure_user_has_joined`: a set flag lets the user through without asking Telegram;
        otherwise the flag becomes the result of a fresh check. */
    method EnsureUserHasJoined(u: UserId, channel: MembershipReply, group: MembershipReply) returns (ok: bool)
      modifies this`joinFlags
      ensures ok == GatePasses(old(joinFlags), u, channel, group)
      ensures joinFlags == GateFlags(old(joinFlags), u, channel, group)
    {
      if HasCompletedJoins(joinFlags, u) {
        return true;
      }
      ok := CheckAllMemberships(channel, group);
      joinFlags := joinFlags[u := ok];
    }

    /** `verify_all_joins_callback`: always asks Telegram again and overwrites the flag,
        so a user who has left loses access here. */
    method VerifyAllJoins(u: UserId, channel: MembershipReply, group: MembershipReply) returns (ok: bool)
      modifies this`joinFlags
      ensures ok == CheckAllMemberships(channel, group)
      ensures joinFlags == old(joinFlags)[u := ok]
      ensures HasCompletedJoins(joinFlags, u) == ok
    {
      ok := CheckAllMemberships(channel, group);
      joinFlags := joinFlags[u := ok];
    }

    /** `login_command_handler`, the entry of the login conversation. */
    method LoginCommand(u: UserId, channel: MembershipReply, group: MembershipReply) returns (next: Flow, reply: LoginReply)
      modifies this`joinFlags, this`awaitingCredentials
      ensures joinFlags == GateFlags(old(joinFlags), u, channel, group)
      ensures !GatePasses(old(joinFlags), u, channel, group) ==> next == End && reply == LoginJoinPrompt
      ensures GatePasses(old(joinFlags), u, channel, group) && u in sessions ==> next == End && reply == AlreadyLoggedIn
      ensures GatePasses(old(joinFlags), u, channel, group) && u !in sessions ==>
        next == AwaitingCredentials && reply == AskForCredentials
      ensures awaitingCredentials ==
        if next == AwaitingCredentials then old(awaitingCredentials) + {u} else old(awaitingCredentials) - {u}
    {
      var ok := EnsureUserHasJoined(u, channel, group);
      if !ok {
        next, reply := End, LoginJoinPrompt;
      } else if u in sessions {
        next, reply := End, AlreadyLoggedIn;
      } else {
        next, reply := AwaitingCredentials, AskForCredentials;
      }
      awaitingCredentials :=
        if next == AwaitingCredentials then awaitingCredentials + {u} else awaitingCredentials - {u};
    }

    /** `receive_credentials`: every path ends the conversation; a session, with no number,
        is created only for well-formed credentials the provider accepted. */
    method ReceiveCredentials(u: UserId, text: string, fetch: FetchResult) returns (next: Flow, reply: CredentialsReply)
      requires Valid() && u in awaitingCredentials
      modifies this`sessions, this`awaitingCredentials, this`calls
      ensures Valid()
      ensures next == End && awaitingCredentials == old(awaitingCredentials) - {u}
      ensures CredentialsAnswered(CheckCredentials(text), u, fetch, old(sessions), old(calls), sessions, calls, reply)
    {
      next := End;
      awaitingCredentials := awaitingCredentials - {u};
      reply := AnswerCredentials(u, CheckCredentials(text), fetch);
    }

    /** What `receive_credentials` does once the text has been checked. */
    method AnswerCredentials(u: UserId, check: CredentialCheck, fetch: FetchResult) returns (reply: CredentialsReply)
      requires Valid()
      requires check.WellFormed? ==> WellFormedSession(Session(check.sid, check.auth, None))
      modifies this`sessions, this`calls
      ensures Valid()
      ensures CredentialsAnswered(check, u, fetch, old(sessions), old(calls), sessions, calls, reply)
    {
      match check
      case MenuButton =>
        reply := PressedMenuButton;
      case NotTwoParts =>
        reply := CredentialsUnreadable;
      case MalformedSid(sid) =>
        reply := SidMalformed(sid);
      case WellFormed(sid, auth) =>
        reply := SignIn(u, sid, auth, fetch);
    }

    /** The provider check of well-formed credentials: a session, with no number yet, is
        created only when the provider returned the account. */
    method SignIn(u: UserId, sid: string, auth: string, fetch: FetchResult) returns (reply: CredentialsReply)
      requires Valid() && WellFormedSession(Session(sid, auth, None))
      modifies this`sessions, this`calls
      ensures Valid()
      ensures calls == old(calls) + [FetchAccount(u, sid, fetch)]
      ensures fetch.Fetched? ==> reply == LoggedIn && sessions == old(sessions)[u := Session(sid, auth, None)]
      ensures fetch.FetchValueError? ==> reply == CredentialsUnreadable && sessions == old(sessions)
      ensures fetch.FetchRaised? ==> reply == LoginFailed && sessions == old(sessions)
    {
      NumbersBackedUntouched(sessions, calls, FetchAccount(u, sid, fetch));
      calls := calls + [FetchAccount(u, sid, fetch)];
      match fetch
      case Fetched =>
        SessionAdded(sessions, calls, u, Session(sid, auth, None));
        sessions := sessions[u := Session(sid, auth, None)];
        reply := LoggedIn;
      case FetchValueError =>
        reply := CredentialsUnreadable;
      case FetchRaised =>
        reply := LoginFailed;
    }

    /** `logout_handler`: behind the gate, drops this user's session and no other. */
    method Logout(u: UserId, channel: MembershipReply, group: MembershipReply) returns (reply: LogoutReply)
      requires Valid()
      modifies this`joinFlags, this`sessions
      ensures Valid()
      ensures joinFlags == GateFlags(old(joinFlags), u, channel, group)
      ensures !GatePasses(old(joinFlags), u, channel, group) ==> reply == LogoutJoinPrompt && sessions == old(sessions)
      ensures GatePasses(old(joinFlags), u, channel, group) ==>
        && sessions == old(sessions) - {u}
        && reply == (if u in old(sessions) then LoggedOut else NotLoggedIn)
    {
      var ok := EnsureUserHasJoined(u, channel, group);
      if !ok {
        return LogoutJoinPrompt;
      }
      if u in sessions {
        sessions := sessions - {u};
        reply := LoggedOut;
      } else {
        reply := NotLoggedIn;
      }
    }

    /** `buy_handler`: offers the provider's numbers as purchase buttons. It does not look
        at whether the user already holds a number. */
    method Buy(u: UserId, channel: MembershipReply, group: MembershipReply, search: SearchResult) returns (reply: BuyReply)
      requires Valid()
      modifies this`joinFlags, this`calls
      ensures Valid()
      ensures joinFlags == GateFlags(old(joinFlags), u, channel, group)
      ensures !GatePasses(old(joinFlags), u, channel, group) ==> reply == BuyJoinPrompt && calls == old(calls)
      ensures GatePasses(old(joinFlags), u, channel, group) && u !in sessions ==>
        reply == BuyLoginFirst && calls == old(calls)
      ensures GatePasses(old(joinFlags), u, channel, group) && u in sessions ==>
        && calls == old(calls) + [SearchNumbers(u)]
        && match search
           case SearchRaised => reply == SearchFailed
           case Offered(numbers) =>
             if numbers == [] then reply == NoNumbersAvailable
             else
               && reply.PurchaseButtons? && |reply.callbackData| == |numbers|
               && forall i :: 0 <= i < |numbers| ==> reply.callbackData[i] == PurchaseCallbackData(numbers[i])
    {
      var ok := EnsureUserHasJoined(u, channel, group);
      if !ok {
        return BuyJoinPrompt;
      }
      if u !in sessions {
        return BuyLoginFirst;
      }
      NumbersBackedUntouched(sessions, calls, SearchNumbers(u));
      calls := calls + [SearchNumbers(u)];
      match search
      case SearchRaised =>
        reply := SearchFailed;
      case Offered(numbers) =>
        if numbers == [] {
          reply := NoNumbersAvailable;
        } else {
          var data := PurchaseKeyboard(numbers);
          reply := PurchaseButtons(data);
        }
    }

    /** `purchase_number_callback_handler`: a user who holds a number gets no provider call;
        otherwise a well-formed request is bought and, on success, recorded. */
    method PurchaseNumber(u: UserId, data: string, channel: MembershipReply, group: MembershipReply, created: CreateResult)
      returns (reply: PurchaseReply)
      requires Valid()
      modifies this`joinFlags, this`sessions, this`calls
      ensures Valid()
      ensures joinFlags == GateFlags(old(joinFlags), u, channel, group)
      ensures !GatePasses(old(joinFlags), u, channel, group) ==>
        reply == PurchaseJoinPrompt && sessions == old(sessions) && calls == old(calls)
      ensures GatePasses(old(joinFlags), u, channel, group) && u !in old(sessions) ==>
        reply == PurchaseLoginFirst && sessions == old(sessions) && calls == old(calls)
      ensures GatePasses(old(joinFlags), u, channel, group) && u in old(sessions) && HasNumber(old(sessions)[u]) ==>
        reply == AlreadyHasNumber(old(sessions)[u].number.value) && sessions == old(sessions) && calls == old(calls)
      ensures GatePasses(old(joinFlags), u, channel, group) && u in old(sessions) && !HasNumber(old(sessions)[u]) ==>
        match ParsePurchaseCallbackData(data)
        case Unsplittable => reply == RequestUnreadable && sessions == old(sessions) && calls == old(calls)
        case InvalidRequest => reply == RequestInvalid && sessions == old(sessions) && calls == old(calls)
        case Request(n) =>
          && calls == old(calls) + [CreateNumber(u, n, created)]
          && match created
             case Created(m) => reply == Purchased(m) && sessions == WithNumber(old(sessions), u, Some(m))
             case CreateRaised(msg) => reply == PurchaseFailed(n, ClassifyPurchaseError(msg)) && sessions == old(sessions)
    {
      var ok := EnsureUserHasJoined(u, channel, group);
      if !ok {
        return PurchaseJoinPrompt;
      }
      if u !in sessions {
        return PurchaseLoginFirst;
      }
      if HasNumber(sessions[u]) {
        return AlreadyHasNumber(sessions[u].number.value);
      }
      match ParsePurchaseCallbackData(data)
      case Unsplittable =>
        reply := RequestUnreadable;
      case InvalidRequest =>
        reply := RequestInvalid;
      case Request(n) =>
        reply := Create(u, n, created, false);
    }

    /** The provider purchase both purchase paths share: record the returned number on
        success, leave the session alone on failure. */
    method Create(u: UserId, n: string, created: CreateResult, direct: bool) returns (reply: PurchaseReply)
      requires Valid() && u in sessions
      modifies this`sessions, this`calls
      ensures Valid()
      ensures calls == old(calls) + [CreateNumber(u, n, created)]
      ensures match created
        case Created(m) => reply == Purchased(m) && sessions == WithNumber(old(sessions), u, Some(m))
        case CreateRaised(msg) =>
          && sessions == old(sessions)
          && reply == PurchaseFailed(n, if direct then ClassifyDirectPurchaseError(msg) else ClassifyPurchaseError(msg))
    {
      match created {
        case Created(m) =>
          NumbersBackedCreated(sessions, calls, u, n, m);
          sessions := WithNumber(sessions, u, Some(m));
          reply := Purchased(m);
        case CreateRaised(msg) =>
          NumbersBackedUntouched(sessions, calls, CreateNumber(u, n, created));
          reply := PurchaseFailed(n, if direct then ClassifyDirectPurchaseError(msg) else ClassifyPurchaseError(msg));
      }
      calls := calls + [CreateNumber(u, n, created)];
    }

    /** `remove_number_handler`: asks to confirm the removal of the number the user holds. */
    method RemoveNumber(u: UserId, channel: MembershipReply, group: MembershipReply) returns (reply: RemoveReply)
      modifies this`joinFlags
      ensures joinFlags == GateFlags(old(joinFlags), u, channel, group)
      ensures reply ==
        if !GatePasses(old(joinFlags), u, channel, group) then RemoveJoinPrompt
        else if u !in sessions then RemoveLoginFirst
        else if !HasNumber(sessions[u]) then NoNumberToRemove
        else ConfirmRemoval(sessions[u].number.value)
    {
      var ok := EnsureUserHasJoined(u, channel, group);
      if !ok {
        reply := RemoveJoinPrompt;
      } else if u !in sessions {
        reply := RemoveLoginFirst;
      } else if !HasNumber(sessions[u]) {
        reply := NoNumberToRemove;
      } else {
        reply := ConfirmRemoval(sessions[u].number.value);
      }
    }

    /** `confirm_remove_callback_handler`: on "yes" the number is forgotten once the provider
        has deleted it or no longer lists it; a stale request, "no" or a failure changes nothing. */
    method ConfirmRemove(u: UserId, data: string, channel: MembershipReply, group: MembershipReply,
                         listing: ListResult, deleted: bool) returns (reply: ConfirmReply)
      requires Valid()
      modifies this`joinFlags, this`sessions, this`calls
      ensures Valid()
      ensures joinFlags == GateFlags(old(joinFlags), u, channel, group)
      ensures !GatePasses(old(joinFlags), u, channel, group) ==>
        reply == ConfirmJoinPrompt && sessions == old(sessions) && calls == old(calls)
      ensures GatePasses(old(joinFlags), u, channel, group) && (u !in old(sessions) || !HasNumber(old(sessions)[u])) ==>
        reply == RequestStale && sessions == old(sessions) && calls == old(calls)
      ensures GatePasses(old(joinFlags), u, channel, group) && u in old(sessions) && HasNumber(old(sessions)[u]) ==>
        var n := old(sessions)[u].number.value;
        if data == ConfirmRemoveYes then
          match listing
          case ListRaised =>
            reply == RemovalFailed && sessions == old(sessions) && calls == old(calls) + [ListOwned(u, n, ListRaised)]
          case NoneListed =>
            && reply == NotOnAccount(n) && sessions == WithNumber(old(sessions), u, None)
            && calls == old(calls) + [ListOwned(u, n, NoneListed)]
          case Listed(numberSid) =>
            && calls == old(calls) + [ListOwned(u, n, listing), DeleteNumber(u, numberSid, deleted)]
            && if deleted then reply == Removed(n) && sessions == WithNumber(old(sessions), u, None)
               else reply == RemovalFailed && sessions == old(sessions)
        else
          && reply == (if data == ConfirmRemoveNo then RemovalCancelled else Ignored)
          && sessions == old(sessions) && calls == old(calls)
    {
      var ok := EnsureUserHasJoined(u, channel, group);
      if !ok {
        return ConfirmJoinPrompt;
      }
      if u !in sessions || !HasNumber(sessions[u]) {
        return RequestStale;
      }
      var n := sessions[u].number.value;
      if data == ConfirmRemoveYes {
        match listing
        case ListRaised =>
          NumbersBackedUntouched(sessions, calls, ListOwned(u, n, ListRaised));
          calls := calls + [ListOwned(u, n, ListRaised)];
          reply := RemovalFailed;
        case NoneListed =>
          NumbersBackedCleared(sessions, calls, u, ListOwned(u, n, NoneListed));
          calls := calls + [ListOwned(u, n, NoneListed)];
          sessions := WithNumber(sessions, u, None);
          reply := NotOnAccount(n);
        case Listed(numberSid) =>
          NumbersBackedUntouched(sessions, calls, ListOwned(u, n, listing));
          calls := calls + [ListOwned(u, n, listing)];
          if deleted {
            NumbersBackedCleared(sessions, calls, u, DeleteNumber(u, numberSid, true));
            sessions := WithNumber(sessions, u, None);
            reply := Removed(n);
          } else {
            NumbersBackedUntouched(sessions, calls, DeleteNumber(u, numberSid, false));
            reply := RemovalFailed;
          }
          calls := calls + [DeleteNumber(u, numberSid, deleted)];
      } else if data == ConfirmRemoveNo {
        reply := RemovalCancelled;
      } else {
        reply := Ignored;
      }
    }

    /** `handle_general_text`: a logged-in user typing '+' and at least seven digits buys
        that number, unless they already hold one; any other text is not understood. */
    method HandleText(u: UserId, text: string, channel: MembershipReply, group: MembershipReply, created: CreateResult)
      returns (reply: TextReply)
      requires Valid()
      modifies this`joinFlags, this`sessions, this`calls
      ensures Valid()
      ensures joinFlags == GateFlags(old(joinFlags), u, channel, group)
      ensures !GatePasses(old(joinFlags), u, channel, group) ==>
        reply == TextJoinPrompt && sessions == old(sessions) && calls == old(calls)
      ensures GatePasses(old(joinFlags), u, channel, group) && !(u in old(sessions) && IsDirectPurchaseText(Strip(text))) ==>
        reply == NotUnderstood && sessions == old(sessions) && calls == old(calls)
      ensures GatePasses(old(joinFlags), u, channel, group) && u in old(sessions) && IsDirectPurchaseText(Strip(text)) ==>
        if HasNumber(old(sessions)[u]) then
          reply == DirectAlreadyHasNumber(old(sessions)[u].number.value) && sessions == old(sessions) && calls == old(calls)
        else
          && calls == old(calls) + [CreateNumber(u, Strip(text), created)]
          && match created
             case Created(m) => reply == DirectPurchased(m) && sessions == WithNumber(old(sessions), u, Some(m))
             case CreateRaised(msg) =>
               reply == DirectPurchaseFailed(Strip(text), ClassifyDirectPurchaseError(msg)) && sessions == old(sessions)
    {
      var ok := EnsureUserHasJoined(u, channel, group);
      if !ok {
        return TextJoinPrompt;
      }
      var t := Strip(text);
      if u in sessions && IsDirectPurchaseText(t) {
        if HasNumber(sessions[u]) {
          return DirectAlreadyHasNumber(sessions[u].number.value);
        }
        var r := Create(u, t, created, true);
        match r
        case Purchased(m) =>
          reply := DirectPurchased(m);
        case PurchaseFailed(requested, reason) =>
          reply := DirectPurchaseFailed(requested, reason);
      } else if HasCompletedJoins(joinFlags, u) {
        reply := NotUnderstood;
      } else {
        reply := Silent;
      }
    }
  }

  /** A logged-in user buys a number, is refused a second one without any provider call,
      and removes the first after the provider stopped listing it. */
  method OneNumberScenario(bot: Bot, u: UserId, phone: string, other: string)
    requires bot.Valid() && HasCompletedJoins(bot.joinFlags, u)
    requires u in bot.sessions && bot.sessions[u].number == None
    requires StartsWith(phone, "+") && StartsWith(other, "+")
    modifies bot
  {
    PurchaseCallbackRoundTrip(phone);
    var bought := bot.PurchaseNumber(u, PurchaseCallbackData(phone), NoBot, NoBot, Created(phone));
    assert bought == Purchased(phone) && bot.sessions[u].number == Some(phone);

    ghost var before := bot.calls;
    bought := bot.PurchaseNumber(u, PurchaseCallbackData(other), NoBot, NoBot, Created(other));
    assert bought == AlreadyHasNumber(phone) && bot.calls == before;

    var removed := bot.ConfirmRemove(u, ConfirmRemoveYes, NoBot, NoBot, NoneListed, false);
    assert removed == NotOnAccount(phone) && bot.sessions[u].number == None;
  }
}
