/** server.js's `inviteUserToChannel`: resolve the channel's username, take the
    first chat tagged "channel"; resolve the user's username, take the first user
    tagged "user"; invite that user to that channel.  All three calls go through
    server.js's non-retrying adapter.  A missing match throws, and every error
    (thrown by the adapter or by the workflow itself) is caught at the top and only
    logged, so the workflow never fails towards its caller. */
module Invitation {
  import opened Wrappers
  import opened Mtproto
  import opened Adapters

  /** `entries.find(e => e._ === tag)`, as the position of the first match. */
  function FirstTagged(entries: seq<Entity>, tag: string): (r: Option<nat>)
    ensures r.Some? ==> r.value < |entries| && entries[r.value].tag == tag
    ensures r.Some? ==> forall j :: 0 <= j < r.value ==> entries[j].tag != tag
    ensures r.None? ==> forall j :: 0 <= j < |entries| ==> entries[j].tag != tag
    decreases |entries|
  {
    if entries == [] then None
    else if entries[0].tag == tag then Some(0)
    else
      match FirstTagged(entries[1..], tag)
      case None => None
      case Some(i) => Some(i + 1)
  }

  /** The entity the workflow goes on with after one resolve call: `None` when the
      call threw, when the answer has no such list (reading `.find` of
      `undefined` throws) or when no entry of the list carries `tag`. */
  function Selected(o: Outcome, list: Option<seq<Entity>>, tag: string): Option<Entity> {
    if o.Failure? || list.None? then None
    else
      match FirstTagged(list.value, tag)
      case None => None
      case Some(i) => Some(list.value[i])
  }

  /** The channel `inviteUserToChannel` goes on with: an entry tagged "channel"
      of the answer's `chats`, and none only when the call threw, there are no
      `chats` or none of them is tagged "channel". */
  function ChannelIn(o: Outcome): (r: Option<Entity>)
    ensures r.Some? ==> && o.Success? && o.value.chats.Some?
                        && r.value in o.value.chats.value && r.value.tag == "channel"
    ensures r.None? && o.Success? && o.value.chats.Some?
            ==> forall e | e in o.value.chats.value :: e.tag != "channel"
  {
    Selected(o, if o.Success? then o.value.chats else None, "channel")
  }

  /** The user `inviteUserToChannel` invites: an entry tagged "user" of the
      answer's `users`, and none only when the call threw, there are no `users`
      or none of them is tagged "user". */
  function UserIn(o: Outcome): (r: Option<Entity>)
    ensures r.Some? ==> && o.Success? && o.value.users.Some?
                        && r.value in o.value.users.value && r.value.tag == "user"
    ensures r.None? && o.Success? && o.value.users.Some?
            ==> forall e | e in o.value.users.value :: e.tag != "user"
  {
    Selected(o, if o.Success? then o.value.users else None, "user")
  }

  /** The `channels.inviteToChannel` request for a resolved channel and user. */
  function InviteRequest(channel: Entity, user: Entity): Rpc {
    InviteToChannel(InputChannel(channel.id, channel.accessHash),
                    [InputUser(user.id, user.accessHash)])
  }

  /** The specification of `inviteUserToChannel`: the client's trace afterwards. */
  function InviteCalls(respond: Oracle, trace: seq<Sent>, dc: Option<int>,
                       channelUsername: string, userUsername: string): seq<Sent>
  {
    var channelResolve := PlainCall(respond, trace, dc, ResolveUsername(channelUsername));
    match ChannelIn(channelResolve.outcome)
    case None => channelResolve.trace
    case Some(channel) =>
      var userResolve := PlainCall(respond, channelResolve.trace, dc, ResolveUsername(userUsername));
      match UserIn(userResolve.outcome)
      case None => userResolve.trace
      case Some(user) => PlainCall(respond, userResolve.trace, dc, InviteRequest(channel, user)).trace
  }

  method InviteUserToChannel(api: Client, channelUsername: string, userUsername: string)
    modifies api
    ensures api.defaultDc == old(api.defaultDc)
    ensures api.trace
         == InviteCalls(api.respond, old(api.trace), old(api.defaultDc), channelUsername, userUsername)
  {
    var channelResolveResult := CallTelegramApiPlain(api, ResolveUsername(channelUsername));
    var channel := ChannelIn(channelResolveResult);
    if channel.None? {
      return;
    }
    var userResolveResult := CallTelegramApiPlain(api, ResolveUsername(userUsername));
    var user := UserIn(userResolveResult);
    if user.None? {
      return;
    }
    var inviteResult := CallTelegramApiPlain(api, InviteRequest(channel.value, user.value));
  }

  /** What a run of the workflow sends, from any state and whatever the answers:
      it keeps the earlier trace and adds one to three calls at the unchanged data
      center; the first resolves the channel's username; a second, resolving the
      user's username, is made exactly when the first answer holds an entry tagged
      "channel"; a third is made exactly when, in addition, the second answer holds
      an entry tagged "user", and it is the invitation carrying the `id` and
      `access_hash` of the first such entries.  No other call is an invitation. */
  lemma InviteCallsShape(respond: Oracle, trace: seq<Sent>, dc: Option<int>,
                         channelUsername: string, userUsername: string)
    ensures var t := InviteCalls(respond, trace, dc, channelUsername, userUsername);
      var n := |trace|;
      var channel := ChannelIn(respond(n, Sent(ResolveUsername(channelUsername), dc)));
      var user := UserIn(respond(n + 1, Sent(ResolveUsername(userUsername), dc)));
      && n + 1 <= |t| <= n + 3
      && t[..n] == trace
      && (forall k :: n <= k < |t| ==> t[k].dc == dc)
      && t[n].rpc == ResolveUsername(channelUsername)
      && (|t| >= n + 2 <==> channel.Some?)
      && (|t| >= n + 2 ==> t[n + 1].rpc == ResolveUsername(userUsername))
      && (|t| == n + 3 <==> channel.Some? && user.Some?)
      && (|t| == n + 3 ==> t[n + 2].rpc == InviteRequest(channel.value, user.value))
      && (forall k :: n <= k < |t| && t[k].rpc.InviteToChannel? ==> k == n + 2)
  {
    var n := |trace|;
    var s1 := PlainCall(respond, trace, dc, ResolveUsername(channelUsername));
    var t := InviteCalls(respond, trace, dc, channelUsername, userUsername);
    assert s1.trace[..n] == trace;
    match ChannelIn(s1.outcome)
    case None =>
    case Some(channel) =>
      var s2 := PlainCall(respond, s1.trace, dc, ResolveUsername(userUsername));
      assert s2.trace[..n] == trace;
      match UserIn(s2.outcome)
      case None =>
      case Some(user) =>
        var s3 := PlainCall(respond, s2.trace, dc, InviteRequest(channel, user));
        assert s3.trace[..n] == trace;
  }

  /** When the channel's username resolves to no entry tagged "channel" (or the
      call fails), the user is never resolved and nobody is invited: the run is
      that single call. */
  lemma NoChannelStopsAfterOneCall(respond: Oracle, trace: seq<Sent>, dc: Option<int>,
                                   channelUsername: string, userUsername: string)
    requires ChannelIn(respond(|trace|, Sent(ResolveUsername(channelUsername), dc))).None?
    ensures InviteCalls(respond, trace, dc, channelUsername, userUsername)
         == trace + [Sent(ResolveUsername(channelUsername), dc)]
  {
  }

  /** When the channel is found but the user's username resolves to no entry
      tagged "user" (or the call fails), no invitation is sent. */
  lemma NoUserNoInvitation(respond: Oracle, trace: seq<Sent>, dc: Option<int>,
                           channelUsername: string, userUsername: string)
    requires ChannelIn(respond(|trace|, Sent(ResolveUsername(channelUsername), dc))).Some?
    requires UserIn(respond(|trace| + 1, Sent(ResolveUsername(userUsername), dc))).None?
    ensures InviteCalls(respond, trace, dc, channelUsername, userUsername)
         == trace + [Sent(ResolveUsername(channelUsername), dc), Sent(ResolveUsername(userUsername), dc)]
  {
    assert trace + [Sent(ResolveUsername(channelUsername), dc)] + [Sent(ResolveUsername(userUsername), dc)]
        == trace + [Sent(ResolveUsername(channelUsername), dc), Sent(ResolveUsername(userUsername), dc)];
  }

  /** `chats.find(...)` returns the FIRST entry tagged "channel": every earlier
      entry carries another tag. */
  lemma ChannelInIsFirst(o: Outcome, channel: Entity)
    requires ChannelIn(o) == Some(channel)
    ensures o.Success? && o.value.chats.Some?
    ensures var chats := o.value.chats.value;
      exists i :: 0 <= i < |chats| && chats[i] == channel
                  && forall j :: 0 <= j < i ==> chats[j].tag != "channel"
  {
    var i := FirstTagged(o.value.chats.value, "channel").value;
  }

  /** `users.find(...)` returns the FIRST entry tagged "user": every earlier entry
      carries another tag. */
  lemma UserInIsFirst(o: Outcome, user: Entity)
    requires UserIn(o) == Some(user)
    ensures o.Success? && o.value.users.Some?
    ensures var users := o.value.users.value;
      exists i :: 0 <= i < |users| && users[i] == user
                  && forall j :: 0 <= j < i ==> users[j].tag != "user"
  {
    var i := FirstTagged(o.value.users.value, "user").value;
  }

  /** The selection skips every earlier entry with another tag: whatever else the
      answer carries, a `chats` list whose first "channel" entry follows any
      number of others (a "channelForbidden", say) yields that entry. */
  lemma SelectionSkipsOtherTags(skipped: seq<Entity>, channel: Entity, rest: seq<Entity>,
                                users: Option<seq<Entity>>, phoneCodeHash: Option<string>)
    requires forall e | e in skipped :: e.tag != "channel"
    requires channel.tag == "channel"
    ensures ChannelIn(Success(Reply(Some(skipped + [channel] + rest), users, phoneCodeHash)))
         == Some(channel)
  {
    var chats := skipped + [channel] + rest;
    var r := FirstTagged(chats, "channel");
    assert chats[|skipped|] == channel;
    assert r.Some?;
    assert r.value == |skipped|;
  }
}
