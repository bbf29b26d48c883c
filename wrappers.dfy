/** Small value types shared by every module of the model. */
module Wrappers {

  /** Python's `None` or a present value. */
  datatype Option<+T> = None | Some(value: T)

  /** Discord snowflake identifiers of members, guilds and voice channels. */
  type MemberId = nat
  type GuildId = nat
  type ChannelId = nat
}
