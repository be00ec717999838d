/** Where the bot is present, from the payload of a successful real-time
    connect (bot.js lines 63-77): the public channels it is a member of,
    written `#name`, and the private groups that are open and not archived,
    each in payload order. */
module Roster {

  datatype SlackChannel = SlackChannel(name: string, isMember: bool)
  datatype SlackGroup = SlackGroup(name: string, isOpen: bool, isArchived: bool)

  /** An absent `channels` or `groups` list is given here as an empty one. */
  datatype ConnectPayload = ConnectPayload(channels: seq<SlackChannel>, groups: seq<SlackGroup>)

  predicate Listed(g: SlackGroup) {
    g.isOpen && !g.isArchived
  }

  /** The labels of the member channels of `cs`, built from the front. */
  function MemberChannels(cs: seq<SlackChannel>): seq<string>
    decreases |cs|
  {
    if cs == [] then []
    else MemberChannels(cs[..|cs| - 1]) + (if cs[|cs| - 1].isMember then ["#" + cs[|cs| - 1].name] else [])
  }

  /** The names of the listed groups of `gs`, built from the front. */
  function OpenGroups(gs: seq<SlackGroup>): seq<string>
    decreases |gs|
  {
    if gs == [] then []
    else OpenGroups(gs[..|gs| - 1]) + (if Listed(gs[|gs| - 1]) then [gs[|gs| - 1].name] else [])
  }

  /** The two `_.each` loops of the connect callback. */
  method Presence(payload: ConnectPayload) returns (channels: seq<string>, groups: seq<string>)
    ensures channels == MemberChannels(payload.channels)
    ensures groups == OpenGroups(payload.groups)
  {
    channels, groups := [], [];
    var i := 0;
    while i < |payload.channels|
      invariant 0 <= i <= |payload.channels|
      invariant channels == MemberChannels(payload.channels[..i])
    {
      var channel := payload.channels[i];
      assert payload.channels[..i + 1][..i] == payload.channels[..i];
      if channel.isMember {
        channels := channels + ["#" + channel.name];
      }
      i := i + 1;
    }
    assert payload.channels[..i] == payload.channels;
    var j := 0;
    while j < |payload.groups|
      invariant 0 <= j <= |payload.groups|
      invariant groups == OpenGroups(payload.groups[..j])
    {
      var group := payload.groups[j];
      assert payload.groups[..j + 1][..j] == payload.groups[..j];
      if group.isOpen && !group.isArchived {
        groups := groups + [group.name];
      }
      j := j + 1;
    }
    assert payload.groups[..j] == payload.groups;
  }

  /** Payload order is kept: the labels of a concatenation are the labels of
      its parts, concatenated. */
  lemma {:induction false} MemberChannelsAppend(a: seq<SlackChannel>, b: seq<SlackChannel>)
    ensures MemberChannels(a + b) == MemberChannels(a) + MemberChannels(b)
    decreases |b|
  {
    if b != [] {
      var b' := b[..|b| - 1];
      assert (a + b)[..|a + b| - 1] == a + b';
      MemberChannelsAppend(a, b');
    } else {
      assert a + b == a;
    }
  }

  /** A single channel contributes its entry exactly when the bot is a member. */
  lemma MemberChannelsSingle(c: SlackChannel)
    ensures MemberChannels([c]) == if c.isMember then ["#" + c.name] else []
  {
  }

  /** Exactly the member channels appear, each as `#` followed by its name. */
  lemma {:induction false} MemberChannelsExactly(cs: seq<SlackChannel>, entry: string)
    ensures entry in MemberChannels(cs) <==>
      exists i :: 0 <= i < |cs| && cs[i].isMember && entry == "#" + cs[i].name
    decreases |cs|
  {
    if cs != [] {
      var init := cs[..|cs| - 1];
      MemberChannelsExactly(init, entry);
      if entry in MemberChannels(init) {
        var i :| 0 <= i < |init| && init[i].isMember && entry == "#" + init[i].name;
        assert cs[i] == init[i];
      }
      if exists i :: 0 <= i < |cs| && cs[i].isMember && entry == "#" + cs[i].name {
        var i :| 0 <= i < |cs| && cs[i].isMember && entry == "#" + cs[i].name;
        if i < |init| {
          assert init[i] == cs[i];
        }
      }
    }
  }

  /** Payload order is kept for groups too. */
  lemma {:induction false} OpenGroupsAppend(a: seq<SlackGroup>, b: seq<SlackGroup>)
    ensures OpenGroups(a + b) == OpenGroups(a) + OpenGroups(b)
    decreases |b|
  {
    if b != [] {
      var b' := b[..|b| - 1];
      assert (a + b)[..|a + b| - 1] == a + b';
      OpenGroupsAppend(a, b');
    } else {
      assert a + b == a;
    }
  }

  /** A single group contributes its name exactly when it is open and not archived. */
  lemma OpenGroupsSingle(g: SlackGroup)
    ensures OpenGroups([g]) == if Listed(g) then [g.name] else []
  {
  }

  /** Exactly the names of the open, unarchived groups appear. */
  lemma {:induction false} OpenGroupsExactly(gs: seq<SlackGroup>, name: string)
    ensures name in OpenGroups(gs) <==>
      exists i :: 0 <= i < |gs| && gs[i].isOpen && !gs[i].isArchived && name == gs[i].name
    decreases |gs|
  {
    if gs != [] {
      var init := gs[..|gs| - 1];
      OpenGroupsExactly(init, name);
      if name in OpenGroups(init) {
        var i :| 0 <= i < |init| && init[i].isOpen && !init[i].isArchived && name == init[i].name;
        assert gs[i] == init[i];
      }
      if exists i :: 0 <= i < |gs| && gs[i].isOpen && !gs[i].isArchived && name == gs[i].name {
        var i :| 0 <= i < |gs| && gs[i].isOpen && !gs[i].isArchived && name == gs[i].name;
        if i < |init| {
          assert init[i] == gs[i];
        }
      }
    }
  }

  /** Neither list is longer than the list it is drawn from. */
  lemma {:induction false} PresenceBounded(payload: ConnectPayload)
    ensures |MemberChannels(payload.channels)| <= |payload.channels|
    ensures |OpenGroups(payload.groups)| <= |payload.groups|
  {
    ChannelsBounded(payload.channels);
    GroupsBounded(payload.groups);
  }

  lemma {:induction false} ChannelsBounded(cs: seq<SlackChannel>)
    ensures |MemberChannels(cs)| <= |cs|
    decreases |cs|
  {
    if cs != [] {
      ChannelsBounded(cs[..|cs| - 1]);
    }
  }

  lemma {:induction false} GroupsBounded(gs: seq<SlackGroup>)
    ensures |OpenGroups(gs)| <= |gs|
    decreases |gs|
  {
    if gs != [] {
      GroupsBounded(gs[..|gs| - 1]);
    }
  }
}
