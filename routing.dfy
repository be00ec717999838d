/** The message listener (bot.js lines 195-228): for every direct message or
    mention, look up the poster, then decide from the first character of the
    channel identifier where the message was posted and hand it to the
    engine's `onMessage`. */
module Routing {
  import opened Wrappers
  import opened Slack

  /** Where a channel identifier says a message was posted. */
  datatype Place = Public | Group | Direct | Ignored

  /** The first character of the identifier (its `substring(0, 1)`) decides:
      `C` public channel, `G` private group, `D` direct message; anything
      else, the empty identifier included, is not handled. */
  function Classify(channelId: string): (p: Place)
    ensures p != Ignored <==> |channelId| > 0 && channelId[0] in "CGD"
  {
    var first := channelId[..if |channelId| < 1 then |channelId| else 1];
    if first == "C" then Public
    else if first == "G" then Group
    else if first == "D" then Direct
    else Ignored
  }

  /** A lookup the listener issues to the platform. */
  datatype ApiCall = UsersInfo(user: string) | ChannelsInfo(channel: string) | GroupsInfo(channel: string)

  /** What a lookup would answer for this message: the value or the error. */
  datatype Answers = Answers(
    user: Result<SlackUser, string>,
    channel: Result<ChannelInfo, string>,
    group: Result<ChannelInfo, string>)

  /** The context handed to `onMessage`: the fetched metadata, or for a
      direct message the object `{id: channel}`. */
  datatype Context = Fetched(info: ChannelInfo) | IdOnly(id: string)

  /** The outcome for the engine: `onMessage` called, nothing, or an
      exception raised from a failed lookup. */
  datatype Effect = OnMessage(context: Context, member: SlackUser, text: string) | NoDispatch | Thrown(error: string)

  /** The lookups issued, in order, and the outcome. */
  datatype Handling = Handling(calls: seq<ApiCall>, effect: Effect)

  /** The listener's callback chain for one message. */
  function Hears(msg: SlackMessage, api: Answers): (h: Handling)
    ensures 1 <= |h.calls| <= 2 && h.calls[0] == UsersInfo(msg.user)
    ensures h.effect.OnMessage? ==> api.user == Success(h.effect.member) && h.effect.text == msg.text
    ensures h.effect.OnMessage? <==>
      api.user.Success? &&
      (Classify(msg.channel) == Direct ||
       (Classify(msg.channel) == Public && api.channel.Success?) ||
       (Classify(msg.channel) == Group && api.group.Success?))
  {
    match api.user
    case Failure(e) => Handling([UsersInfo(msg.user)], Thrown(e))
    case Success(member) =>
      match Classify(msg.channel)
      case Public =>
        Handling([UsersInfo(msg.user), ChannelsInfo(msg.channel)],
          match api.channel
          case Failure(e) => Thrown(e)
          case Success(c) => OnMessage(Fetched(c), member, msg.text))
      case Group =>
        Handling([UsersInfo(msg.user), GroupsInfo(msg.channel)],
          match api.group
          case Failure(e) => Thrown(e)
          case Success(g) => OnMessage(Fetched(g), member, msg.text))
      case Direct =>
        Handling([UsersInfo(msg.user)], OnMessage(IdOnly(msg.channel), member, msg.text))
      case Ignored =>
        Handling([UsersInfo(msg.user)], NoDispatch)
  }

  /** Only the first character of the identifier matters. */
  lemma FirstCharacterDecides(a: string, b: string)
    requires |a| > 0 && |b| > 0 && a[0] == b[0]
    ensures Classify(a) == Classify(b)
  {
  }

  /** The three handled prefixes, and nothing else. */
  lemma ClassifyPrefixes(rest: string)
    ensures Classify("C" + rest) == Public
    ensures Classify("G" + rest) == Group
    ensures Classify("D" + rest) == Direct
    ensures Classify(rest) == Ignored <==> rest == [] || rest[0] !in "CGD"
  {
  }

  /** A failed user lookup raises before the channel is even inspected. */
  lemma UserLookupFailureThrows(msg: SlackMessage, api: Answers)
    requires api.user.Failure?
    ensures Hears(msg, api) == Handling([UsersInfo(msg.user)], Thrown(api.user.error))
  {
  }

  /** A direct message goes to `onMessage` as `{id: channel}` with no
      channel or group lookup, whatever those lookups would answer. */
  lemma DirectMessageNeedsNoLookup(msg: SlackMessage, api: Answers, channel: Result<ChannelInfo, string>, group: Result<ChannelInfo, string>)
    requires Classify(msg.channel) == Direct && api.user.Success?
    ensures Hears(msg, api) == Handling([UsersInfo(msg.user)], OnMessage(IdOnly(msg.channel), api.user.value, msg.text))
    ensures Hears(msg, api) == Hears(msg, Answers(api.user, channel, group))
  {
  }

  /** A public-channel message is first looked up with `channels.info`; its
      answer becomes the context, or its error is raised. */
  lemma PublicChannelIsLookedUp(msg: SlackMessage, api: Answers, group: Result<ChannelInfo, string>)
    requires Classify(msg.channel) == Public && api.user.Success?
    ensures Hears(msg, api).calls == [UsersInfo(msg.user), ChannelsInfo(msg.channel)]
    ensures api.channel.Success? ==>
      Hears(msg, api).effect == OnMessage(Fetched(api.channel.value), api.user.value, msg.text)
    ensures api.channel.Failure? ==> Hears(msg, api).effect == Thrown(api.channel.error)
    ensures Hears(msg, api) == Hears(msg, Answers(api.user, api.channel, group))
  {
  }

  /** A group message is first looked up with `groups.info`; its answer
      becomes the context, or its error is raised. */
  lemma GroupIsLookedUp(msg: SlackMessage, api: Answers, channel: Result<ChannelInfo, string>)
    requires Classify(msg.channel) == Group && api.user.Success?
    ensures Hears(msg, api).calls == [UsersInfo(msg.user), GroupsInfo(msg.channel)]
    ensures api.group.Success? ==>
      Hears(msg, api).effect == OnMessage(Fetched(api.group.value), api.user.value, msg.text)
    ensures api.group.Failure? ==> Hears(msg, api).effect == Thrown(api.group.error)
    ensures Hears(msg, api) == Hears(msg, Answers(api.user, channel, api.group))
  {
  }

  /** Any other identifier is dropped silently: `onMessage` is never called. */
  lemma OtherIdentifiersDropped(msg: SlackMessage, api: Answers)
    requires Classify(msg.channel) == Ignored && api.user.Success?
    ensures Hears(msg, api) == Handling([UsersInfo(msg.user)], NoDispatch)
  {
  }
}
