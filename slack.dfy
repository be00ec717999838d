/** The chat platform's records as the bot sees them. */
module Slack {

  /** A user profile, as `users.info` answers it. */
  datatype SlackUser = SlackUser(id: string, name: string)

  /** Channel or group metadata, as `channels.info`, `groups.info` or the
      engine's `getChannel` answer it. */
  datatype ChannelInfo = ChannelInfo(id: string, name: string)

  /** An incoming message: who posted it, where, and its text. */
  datatype SlackMessage = SlackMessage(user: string, channel: string, text: string)
}
