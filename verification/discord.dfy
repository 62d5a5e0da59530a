/** The parts of an inbound chat message that the relay reads, the outcomes
    of the two chat-platform lookups it makes, and the decisions it takes on
    them: which messages are eligible and how channel and author names are
    resolved. */
module Discord {
  import opened Wrappers

  type ChannelId = nat
  type GuildId = nat
  type UserId = nat

  /** The author of a message: the account name and whether it is a bot. */
  datatype User = User(id: UserId, name: string, bot: bool)

  /** An inbound message. `link` is the permalink the client library builds
      for it; `guildId` is absent for a direct message. */
  datatype Message = Message(
    author: User,
    guildId: Option<GuildId>,
    channelId: ChannelId,
    content: string,
    link: string)

  /** The outcome of resolving the message's channel: the request failed,
      or it gave a guild (server) channel with its name, or some other kind
      of channel, which has no guild name. */
  datatype ChannelLookup = ChannelLookupFailed | GuildChannel(name: string) | OtherChannel

  /** The outcome of looking up the author as a member of the guild: the
      request failed, or it gave the member, whose nickname may be unset. */
  datatype MemberLookup = MemberLookupFailed | MemberFound(nick: Option<string>)

  /** The name shown when the channel lookup fails. */
  const UnknownChannel: string := "Unknown channel"

  /** A message is relayed only if a person wrote it, in a guild, and it
      has text. */
  function Eligible(msg: Message): (ok: bool)
    ensures ok <==> !msg.author.bot && msg.guildId.Some? && |msg.content| > 0
  {
    if msg.author.bot then false
    else if msg.guildId.None? then false
    else if msg.content == "" then false
    else true
  }

  /** The channel name used in the notification. */
  function ChannelName(lookup: ChannelLookup): (name: string)
    ensures lookup.GuildChannel? ==> name == lookup.name
    ensures lookup.ChannelLookupFailed? ==> name == UnknownChannel
    ensures lookup.OtherChannel? ==> name == ""
  {
    match lookup
    case GuildChannel(n) => n
    case OtherChannel => ""
    case ChannelLookupFailed => UnknownChannel
  }

  /** The author's name used in the notification: the guild nickname when
      the member lookup (made only for a guild message) succeeds and a
      nickname is set, and the account name in every other case. */
  function NickName(author: User, guildId: Option<GuildId>, member: MemberLookup): (nick: string)
    ensures guildId.Some? && member.MemberFound? && member.nick.Some? ==> nick == member.nick.value
    ensures guildId.None? || member.MemberLookupFailed? || member.nick.None? ==> nick == author.name
  {
    match (guildId, member)
    case (Some(_), MemberFound(Some(n))) => n
    case _ => author.name
  }

  /** The handler's own resolution of the nickname: start from the account
      name and overwrite it step by step when a guild member with a
      nickname is found. */
  method ResolveNickName(author: User, guildId: Option<GuildId>, member: MemberLookup)
    returns (nick: string)
    ensures nick == NickName(author, guildId, member)
  {
    nick := author.name;
    if guildId.Some? {
      if member.MemberFound? {
        if member.nick.Some? {
          nick := member.nick.value;
        }
      }
    }
  }
}
