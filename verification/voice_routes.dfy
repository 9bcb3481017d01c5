/** The HTTP routes of voice membership: join, leave and the two state
    patches. Each successful change is announced to the guild with
    `VOICE_STATE_UPDATE` through the shared guild dispatch; a rejected request
    answers the error's status and leaves the table and the bus as they
    were. The session id of a join is a parameter (a random UUID in the
    service). */
module VoiceRoutes {
  import opened Common
  import opened Schema
  import opened VoiceStateRepository
  import opened VoiceStateService
  import opened Dispatch

  /** What the routes read and write. */
  datatype State = State(voice: Table, bus: Bus)


  /** The join body after parsing. */
  datatype JoinBody = JoinBody(
    userId: UserId,
    username: string,
    channelType: int,
    userLimit: Option<int>,
    selfMute: Option<bool>,
    selfDeaf: Option<bool>)

  /** `POST /voice/:guildId/:channelId/join`: the joined state, with its
      media token and URL, is both the body and the announcement. */
  function JoinRoute(st: State, guildId: GuildId, channelId: ChannelId, body: JoinBody,
                     sessionId: string, livekitUrl: string, now: int): (r: Reply<EventData, State>)
    ensures var j := JoinVoiceChannel(st.voice, body.userId, guildId, channelId, body.channelType, sessionId,
                                      body.username, body.userLimit, body.selfMute, body.selfDeaf, livekitUrl);
            && (r.status == 200 <==> j.Ok?)
            && (j.Err? ==> r == Reject(j.error, st))
            && (j.Ok? ==>
                  var data := JoinedState(j.value.state, j.value.token, j.value.livekitUrl);
                  && r.body == Some(data)
                  && r.state == State(j.value.table, DispatchGuild(st.bus, guildId, VoiceStateUpdate, data, now)))
  {
    match JoinVoiceChannel(st.voice, body.userId, guildId, channelId, body.channelType, sessionId,
                           body.username, body.userLimit, body.selfMute, body.selfDeaf, livekitUrl)
    case Err(e) => Reject(e, st)
    case Ok(j) =>
      var data := JoinedState(j.state, j.token, j.livekitUrl);
      Reply(200, Some(data), State(j.table, DispatchGuild(st.bus, guildId, VoiceStateUpdate, data, now)))
  }

  /** `POST /voice/:guildId/leave`: always 204; the departure, with the
      session id of the removed row, is announced only when there was a
      row. */
  function LeaveRoute(st: State, guildId: GuildId, userId: UserId, now: int): (r: Reply<EventData, State>)
    ensures r.status == 204 && r.body.None?
    ensures r.state.voice == LeaveVoiceChannel(st.voice, userId, guildId).table
    ensures VoiceKey(userId, guildId) !in st.voice ==> r.state == st
    ensures VoiceKey(userId, guildId) in st.voice ==>
      r.state.bus == DispatchGuild(st.bus, guildId, VoiceStateUpdate,
                                   LeftChannel(userId, guildId, st.voice[VoiceKey(userId, guildId)].sessionId), now)
  {
    var l := LeaveVoiceChannel(st.voice, userId, guildId);
    match l.previous
    case None => Reply(204, None, State(l.table, st.bus))
    case Some(previous) =>
      Reply(204, None, State(l.table, DispatchGuild(st.bus, guildId, VoiceStateUpdate,
                                                   LeftChannel(userId, guildId, previous.sessionId), now)))
  }

  /** `PATCH /voice/:guildId/:userId`: an empty body is refused before the
      service is called. */
  function PatchSelfRoute(st: State, guildId: GuildId, userId: UserId, patch: SelfStatePatch, now: int): (r: Reply<EventData, State>)
    ensures patch.IsEmpty() ==> r == Reply(400, None, st)
    ensures r.status == 200 <==> !patch.IsEmpty() && VoiceKey(userId, guildId) in st.voice
    ensures !patch.IsEmpty() && VoiceKey(userId, guildId) !in st.voice ==> r == Reject(NotInVoiceChannel, st)
    ensures r.status == 200 ==>
      var c := UpdateVoiceState(st.voice, userId, guildId, patch).value;
      && r.body == Some(Row(c.row))
      && r.state == State(c.table, DispatchGuild(st.bus, guildId, VoiceStateUpdate, Row(c.row), now))
  {
    if patch.IsEmpty() then Reply(400, None, st)
    else
      match UpdateVoiceState(st.voice, userId, guildId, patch)
      case Err(e) => Reject(e, st)
      case Ok(c) => Reply(200, Some(Row(c.row)), State(c.table, DispatchGuild(st.bus, guildId, VoiceStateUpdate, Row(c.row), now)))
  }

  /** `PATCH /voice/:guildId/:userId/server`: an empty body is refused before
      the service is called. */
  function PatchServerRoute(st: State, guildId: GuildId, userId: UserId, patch: ServerStatePatch, now: int): (r: Reply<EventData, State>)
    ensures patch.IsEmpty() ==> r == Reply(400, None, st)
    ensures r.status == 200 <==> !patch.IsEmpty() && VoiceKey(userId, guildId) in st.voice
    ensures !patch.IsEmpty() && VoiceKey(userId, guildId) !in st.voice ==> r == Reject(UserNotInVoiceChannel, st)
    ensures r.status == 200 ==>
      var c := ServerMuteDeafen(st.voice, userId, guildId, patch).value;
      && r.body == Some(Row(c.row))
      && r.state == State(c.table, DispatchGuild(st.bus, guildId, VoiceStateUpdate, Row(c.row), now))
  {
    if patch.IsEmpty() then Reply(400, None, st)
    else
      match ServerMuteDeafen(st.voice, userId, guildId, patch)
      case Err(e) => Reject(e, st)
      case Ok(c) => Reply(200, Some(Row(c.row)), State(c.table, DispatchGuild(st.bus, guildId, VoiceStateUpdate, Row(c.row), now)))
  }

  /** A join through the route followed by a leave announces the join's own
      session id, and leaves every other row as it was before the join. */
  lemma JoinThenLeaveRoute(st: State, guildId: GuildId, channelId: ChannelId, body: JoinBody,
                           sessionId: string, livekitUrl: string, now: int, later: int)
    requires JoinRoute(st, guildId, channelId, body, sessionId, livekitUrl, now).status == 200
    ensures var joined := JoinRoute(st, guildId, channelId, body, sessionId, livekitUrl, now).state;
            var left := LeaveRoute(joined, guildId, body.userId, later).state;
            && left.voice == st.voice - {VoiceKey(body.userId, guildId)}
            && PublishedOne(joined.bus, left.bus, guildId, VoiceStateUpdate, LeftChannel(body.userId, guildId, sessionId))
  {
    JoinThenLeave(st.voice, body.userId, guildId, channelId, body.channelType, sessionId, body.username,
                  body.userLimit, body.selfMute, body.selfDeaf, livekitUrl);
  }

  /** The announced row of a state patch is the stored row, and the user
      stays in the same channel. */
  lemma PatchAnnouncesStoredRow(st: State, guildId: GuildId, userId: UserId, patch: SelfStatePatch, now: int)
    requires PatchSelfRoute(st, guildId, userId, patch, now).status == 200
    ensures var r := PatchSelfRoute(st, guildId, userId, patch, now);
            && VoiceKey(userId, guildId) in r.state.voice
            && r.body == Some(Row(r.state.voice[VoiceKey(userId, guildId)]))
            && r.state.voice[VoiceKey(userId, guildId)].channelId == st.voice[VoiceKey(userId, guildId)].channelId
  {
  }
}
