/** The `hello` handler's effect on the engine's options (bot.js lines
    104-156): each configured special channel name is resolved through the
    engine's `getChannel`, and a successful answer is stored in its slot.
    A failed lookup leaves the slot as it was. */
module Hello {
  import opened Wrappers
  import opened Slack
  import Config

  /** The slots `PRICETICKER_CHANNEL`, `MODERATOR_CHANNEL` and `MAIN_CHANNEL`. */
  datatype SpecialChannels = SpecialChannels(
    priceTicker: Option<ChannelInfo>,
    moderator: Option<ChannelInfo>,
    main: Option<ChannelInfo>)

  /** One slot: filled when its name is configured and `getChannel` finds
      it (`found` holds the names it resolves), left alone otherwise. */
  function FillSlot(name: Option<string>, found: map<string, ChannelInfo>, slot: Option<ChannelInfo>): Option<ChannelInfo> {
    if name.Some? && name.value in found then Some(found[name.value]) else slot
  }

  /** Each slot holds the channel its configured name resolves to, and
      keeps its previous value when the name is not configured or not found. */
  function OnHello(opts: Config.Options, found: map<string, ChannelInfo>, slots: SpecialChannels): (r: SpecialChannels)
    ensures opts.priceChannelName.Some? && opts.priceChannelName.value in found ==>
      r.priceTicker == Some(found[opts.priceChannelName.value])
    ensures !(opts.priceChannelName.Some? && opts.priceChannelName.value in found) ==>
      r.priceTicker == slots.priceTicker
    ensures opts.moderatorChannelName.Some? && opts.moderatorChannelName.value in found ==>
      r.moderator == Some(found[opts.moderatorChannelName.value])
    ensures !(opts.moderatorChannelName.Some? && opts.moderatorChannelName.value in found) ==>
      r.moderator == slots.moderator
    ensures opts.mainChannelName.Some? && opts.mainChannelName.value in found ==>
      r.main == Some(found[opts.mainChannelName.value])
    ensures !(opts.mainChannelName.Some? && opts.mainChannelName.value in found) ==>
      r.main == slots.main
  {
    SpecialChannels(
      FillSlot(opts.priceChannelName, found, slots.priceTicker),
      FillSlot(opts.moderatorChannelName, found, slots.moderator),
      FillSlot(opts.mainChannelName, found, slots.main))
  }

  /** A failed lookup for one name never keeps another channel from being
      resolved: removing `missing` from what resolves changes only the slots
      configured with that name, and those keep their previous value. */
  lemma LookupFailureIsolated(opts: Config.Options, found: map<string, ChannelInfo>, slots: SpecialChannels, missing: string)
    ensures opts.priceChannelName != Some(missing) ==>
      OnHello(opts, found - {missing}, slots).priceTicker == OnHello(opts, found, slots).priceTicker
    ensures opts.moderatorChannelName != Some(missing) ==>
      OnHello(opts, found - {missing}, slots).moderator == OnHello(opts, found, slots).moderator
    ensures opts.mainChannelName != Some(missing) ==>
      OnHello(opts, found - {missing}, slots).main == OnHello(opts, found, slots).main
    ensures opts.priceChannelName == Some(missing) ==>
      OnHello(opts, found - {missing}, slots).priceTicker == slots.priceTicker
    ensures opts.moderatorChannelName == Some(missing) ==>
      OnHello(opts, found - {missing}, slots).moderator == slots.moderator
    ensures opts.mainChannelName == Some(missing) ==>
      OnHello(opts, found - {missing}, slots).main == slots.main
  {
  }

  /** With the shipped options, the three slots are filled from the
      channels named `price_speculation`, `moderators` and `dash_chat`. */
  lemma DefaultSpecialChannels(found: map<string, ChannelInfo>, slots: SpecialChannels)
    ensures var r := OnHello(Config.DefaultOptions, found, slots);
      ("price_speculation" in found ==> r.priceTicker == Some(found["price_speculation"])) &&
      ("moderators" in found ==> r.moderator == Some(found["moderators"])) &&
      ("dash_chat" in found ==> r.main == Some(found["dash_chat"])) &&
      ("price_speculation" !in found ==> r.priceTicker == slots.priceTicker) &&
      ("moderators" !in found ==> r.moderator == slots.moderator) &&
      ("dash_chat" !in found ==> r.main == slots.main)
  {
  }
}
