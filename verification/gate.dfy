/** The access gate of bot.py: a user may use the bot once Telegram reports them in both
    the channel and the group; a positive answer is cached in a per-user flag. */
module Gate {

  /** A Telegram user id. */
  type UserId = int

  /** The statuses Telegram reports for a chat member. */
  datatype ChatMemberStatus = Creator | Administrator | Member | Restricted | Left | Banned

  /** What asking Telegram about the user in one community yields. */
  datatype MembershipReply =
    | Status(status: ChatMemberStatus)
    | BadRequest        // user not found, or the chat id is wrong
    | Forbidden         // the bot may not see the community's members
    | OtherError        // any other exception
    | NoBot             // no bot instance in the handler's context: nothing is asked

  /** The verdict on one community: only a reported member, administrator or creator counts. */
  predicate Joined(reply: MembershipReply) {
    reply.Status? && reply.status in {Member, Administrator, Creator}
  }

  /** `check_all_memberships`: the channel and the group must both say joined. */
  function CheckAllMemberships(channel: MembershipReply, group: MembershipReply): (joined: bool)
    ensures joined <==>
      && channel.Status? && !(channel.status.Restricted? || channel.status.Left? || channel.status.Banned?)
      && group.Status? && !(group.status.Restricted? || group.status.Left? || group.status.Banned?)
  {
    Joined(channel) && Joined(group)
  }

  /** A failed or impossible query for either community denies access: the gate fails closed. */
  lemma FailsClosed(channel: MembershipReply, group: MembershipReply)
    requires !channel.Status? || !group.Status?
    ensures !CheckAllMemberships(channel, group)
  {
  }

  /** `context.user_data.get(USER_COMPLETED_ALL_JOINS_KEY, False)`. */
  predicate HasCompletedJoins(flags: map<UserId, bool>, u: UserId)
    ensures u !in flags ==> !HasCompletedJoins(flags, u)
    ensures u in flags ==> (HasCompletedJoins(flags, u) <==> flags[u])
  {
    u in flags && flags[u]
  }

  /** Whether `ensure_user_has_joined` lets `u` through: at once when the flag is set,
      otherwise on a fresh membership check. */
  predicate GatePasses(flags: map<UserId, bool>, u: UserId, channel: MembershipReply, group: MembershipReply)
    ensures HasCompletedJoins(flags, u) ==> GatePasses(flags, u, channel, group)
    ensures !HasCompletedJoins(flags, u) && (!channel.Status? || !group.Status?) ==> !GatePasses(flags, u, channel, group)
    ensures !HasCompletedJoins(flags, u) ==>
      (GatePasses(flags, u, channel, group) <==> Joined(channel) && Joined(group))
  {
    HasCompletedJoins(flags, u) || CheckAllMemberships(channel, group)
  }

  /** The join flags after `ensure_user_has_joined` for `u`. */
  function GateFlags(flags: map<UserId, bool>, u: UserId, channel: MembershipReply, group: MembershipReply)
    : (after: map<UserId, bool>)
    ensures HasCompletedJoins(after, u) == GatePasses(flags, u, channel, group)
    ensures HasCompletedJoins(flags, u) ==> after == flags
    ensures u in after
    ensures forall v :: v != u ==> (v in after <==> v in flags) && (v in flags ==> after[v] == flags[v])
  {
    if HasCompletedJoins(flags, u) then flags else flags[u := CheckAllMemberships(channel, group)]
  }

  /** Once through, a user stays through: later gate checks pass without asking Telegram,
      whatever it would now answer, and change no flag. */
  lemma GateSticky(flags: map<UserId, bool>, u: UserId, channel: MembershipReply, group: MembershipReply,
                   laterChannel: MembershipReply, laterGroup: MembershipReply)
    requires GatePasses(flags, u, channel, group)
    ensures var after := GateFlags(flags, u, channel, group);
      GatePasses(after, u, laterChannel, laterGroup) && GateFlags(after, u, laterChannel, laterGroup) == after
  {
  }
}
