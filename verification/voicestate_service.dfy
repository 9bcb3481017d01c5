/** The voice membership rules: joining (with the channel-type check and the
    capacity check inside one transaction), leaving, and the self-state and
    server mute/deafen updates. A call that fails returns `Err` and no table:
    the caller's table is the state after it, which is how the rollback of the
    join transaction is modelled. */
module VoiceStateService {
  import opened Common
  import opened Schema
  import opened VoiceStateRepository

  /** The two voice-capable channel types: a voice channel and a stage. */
  const VoiceChannelType: int := 2
  const StageChannelType: int := 13

  const NotVoiceChannel: Failure := ApiError(400, "Not a voice channel")
  const ChannelFull: Failure := ApiError(400, "Voice channel is full")
  const NotInVoiceChannel: Failure := ApiError(404, "Not in a voice channel")
  const UserNotInVoiceChannel: Failure := ApiError(404, "User not in a voice channel")

  predicate IsVoiceChannelType(channelType: int) {
    channelType == VoiceChannelType || channelType == StageChannelType
  }

  /** `userLimit && userLimit > 0`: null, zero and negative limits are off. */
  predicate LimitApplies(userLimit: Option<int>) {
    userLimit.Some? && userLimit.value > 0
  }

  /** What the media-server token grants; the signed token itself (an
      HMAC-SHA256 compact JWS with a four-hour lifetime and a random `jti`) is
      not modelled. Joining the room and subscribing are always granted. */
  datatype MediaGrant = MediaGrant(room: string, participantId: UserId, participantName: string, canPublish: bool)

  /** The media room of a voice channel: `voice-<guildId>-<channelId>`. */
  function RoomName(guildId: GuildId, channelId: ChannelId): string {
    "voice-" + guildId + "-" + channelId
  }

  /** A successful join: the table after the transaction, the state object
      returned to the caller, the token grant and the media-server URL. */
  datatype Joined = Joined(table: Table, state: VoiceState, token: MediaGrant, livekitUrl: string)

  /** `joinVoiceChannel`. The row the transaction stores takes `suppress`
      from its column default (false), while the object returned to the
      caller carries `suppress := channelType == 13`: two distinct values. */
  function JoinVoiceChannel(t: Table, userId: UserId, guildId: GuildId, channelId: ChannelId,
                            channelType: int, sessionId: string, username: string,
                            userLimit: Option<int>, selfMute: Option<bool>, selfDeaf: Option<bool>,
                            livekitUrl: string): (r: Result<Joined>)
    // a channel that is not voice-capable is rejected first
    ensures !IsVoiceChannelType(channelType) ==> r == Err(NotVoiceChannel)
    ensures r.Err? ==> r.error == NotVoiceChannel || r.error == ChannelFull
    // full means: at the limit once the user's own prior row is gone
    ensures IsVoiceChannelType(channelType) ==>
      (r.Err? <==> LimitApplies(userLimit) &&
                   CountByChannel(DeleteByUserAndGuild(t, userId, guildId), channelId) >= userLimit.value)
    // the stored row: exactly one under the key, in the new channel and session
    ensures r.Ok? ==>
      && VoiceKey(userId, guildId) in r.value.table
      && r.value.table[VoiceKey(userId, guildId)] ==
         NewVoiceState(userId, guildId, channelId, sessionId, selfMute.GetOr(false), selfDeaf.GetOr(false))
    // every other row is untouched
    ensures r.Ok? ==> forall k :: k != VoiceKey(userId, guildId) ==>
      (k in r.value.table <==> k in t) && (k in t ==> r.value.table[k] == t[k])
    // the returned state differs from the stored row only in `suppress`
    ensures r.Ok? ==>
      r.value.state == r.value.table[VoiceKey(userId, guildId)].(suppress := channelType == StageChannelType)
    // the token is for the channel's room, publishing only outside a stage
    ensures r.Ok? ==>
      && r.value.token.room == RoomName(guildId, channelId)
      && r.value.token.participantId == userId
      && r.value.token.participantName == username
      && r.value.token.canPublish == (channelType != StageChannelType)
      && r.value.livekitUrl == livekitUrl
  {
    if !IsVoiceChannelType(channelType) then Err(NotVoiceChannel)
    else
      var cleared := DeleteByUserAndGuild(t, userId, guildId);
      if LimitApplies(userLimit) && CountByChannel(cleared, channelId) >= userLimit.value then
        Err(ChannelFull)
      else
        Ok(Admit(cleared, userId, guildId, channelId, channelType, sessionId, username,
                 selfMute, selfDeaf, livekitUrl))
  }

  /** The admitted half of a join: the insert into the table cleared of the
      user's prior row, the returned state and the token grant. */
  function Admit(cleared: Table, userId: UserId, guildId: GuildId, channelId: ChannelId,
                 channelType: int, sessionId: string, username: string,
                 selfMute: Option<bool>, selfDeaf: Option<bool>, livekitUrl: string): Joined
    requires VoiceKey(userId, guildId) !in cleared
  {
    var mute, deaf := selfMute.GetOr(false), selfDeaf.GetOr(false);
    var stored := Insert(cleared, userId, guildId, channelId, sessionId, mute, deaf).value;
    var returned := VoiceState(userId, guildId, channelId, sessionId,
                               deaf := false, mute := false, selfDeaf := deaf, selfMute := mute,
                               selfStream := false, selfVideo := false,
                               suppress := channelType == StageChannelType);
    var token := MediaGrant(RoomName(guildId, channelId), userId, username,
                            channelType != StageChannelType);
    Joined(stored, returned, token, livekitUrl)
  }

  /** JavaScript's `count >= limit` with a count that may be `undefined`:
      `undefined` converts to `NaN`, and every comparison with `NaN` is
      false. */
  predicate JsAtLeast(count: Option<nat>, limit: int) {
    count.Some? && count.value >= limit
  }

  /** `joinVoiceChannel` as written, over the count the source actually
      reads. The count is `undefined`, so the capacity test never fires:
      every join into a voice-capable channel is admitted, exactly as the
      corrected join with no limit at all. */
  function JoinVoiceChannelAsWritten(t: Table, userId: UserId, guildId: GuildId, channelId: ChannelId,
                                     channelType: int, sessionId: string, username: string,
                                     userLimit: Option<int>, selfMute: Option<bool>, selfDeaf: Option<bool>,
                                     livekitUrl: string): (r: Result<Joined>)
    ensures !IsVoiceChannelType(channelType) ==> r == Err(NotVoiceChannel)
    ensures IsVoiceChannelType(channelType) ==> r.Ok?
    ensures r == JoinVoiceChannel(t, userId, guildId, channelId, channelType, sessionId, username,
                                  None, selfMute, selfDeaf, livekitUrl)
  {
    if !IsVoiceChannelType(channelType) then Err(NotVoiceChannel)
    else
      var cleared := DeleteByUserAndGuild(t, userId, guildId);
      if LimitApplies(userLimit) &&
         JsAtLeast(CountByChannelAsWritten(cleared, channelId), userLimit.value) then
        Err(ChannelFull)
      else
        Ok(Admit(cleared, userId, guildId, channelId, channelType, sessionId, username,
                 selfMute, selfDeaf, livekitUrl))
  }

  /** As written, a channel at or over its limit still admits a newcomer:
      the join succeeds and the channel ends one row past its count, so past
      the limit. `FullChannelRejectsNewcomer` is the corrected behaviour for
      the same inputs. */
  lemma FullChannelAdmitsNewcomerAsWritten(t: Table, userId: UserId, guildId: GuildId, channelId: ChannelId,
                                           channelType: int, sessionId: string, username: string,
                                           limit: int, livekitUrl: string)
    requires IsVoiceChannelType(channelType) && limit > 0
    requires VoiceKey(userId, guildId) !in ChannelKeys(t, channelId)
    requires CountByChannel(t, channelId) >= limit
    ensures var r := JoinVoiceChannelAsWritten(t, userId, guildId, channelId, channelType, sessionId,
                                               username, Some(limit), None, None, livekitUrl);
            && r.Ok?
            && CountByChannel(r.value.table, channelId) == CountByChannel(t, channelId) + 1
            && CountByChannel(r.value.table, channelId) > limit
  {
    var key := VoiceKey(userId, guildId);
    var cleared := DeleteByUserAndGuild(t, userId, guildId);
    ChannelKeysAfterDelete(t, key, channelId);
    assert cleared == t - {key};
    InsertCount(cleared, userId, guildId, channelId, sessionId, false, false, channelId);
  }

  /** The smallest instance: a channel limited to one user already holds
      another user's row; a second user joins and the channel holds two. */
  lemma SecondUserJoinsOneSeatChannelAsWritten()
    ensures var t := map[VoiceKey("v", "g") := NewVoiceState("v", "g", "c", "s1", false, false)];
            var r := JoinVoiceChannelAsWritten(t, "u", "g", "c", VoiceChannelType, "s2", "u",
                                               Some(1), None, None, "wss://media");
            r.Ok? && CountByChannel(r.value.table, "c") == 2
  {
    var t := map[VoiceKey("v", "g") := NewVoiceState("v", "g", "c", "s1", false, false)];
    assert ChannelKeys(t, "c") == {VoiceKey("v", "g")};
    FullChannelAdmitsNewcomerAsWritten(t, "u", "g", "c", VoiceChannelType, "s2", "u", 1, "wss://media");
  }

  /** A join keeps every row under its own key. */
  lemma JoinPreservesWellKeyed(t: Table, userId: UserId, guildId: GuildId, channelId: ChannelId,
                               channelType: int, sessionId: string, username: string,
                               userLimit: Option<int>, selfMute: Option<bool>, selfDeaf: Option<bool>,
                               livekitUrl: string)
    requires WellKeyed(t)
    ensures var r := JoinVoiceChannel(t, userId, guildId, channelId, channelType, sessionId, username,
                                      userLimit, selfMute, selfDeaf, livekitUrl);
            r.Ok? ==> WellKeyed(r.value.table)
  {
  }

  /** The capacity rule. After a successful join with a positive limit the
      channel holds at most that many rows, whatever it held before; every
      other channel loses at most the user's prior row. */
  lemma JoinRespectsCapacity(t: Table, userId: UserId, guildId: GuildId, channelId: ChannelId,
                             channelType: int, sessionId: string, username: string,
                             userLimit: Option<int>, selfMute: Option<bool>, selfDeaf: Option<bool>,
                             livekitUrl: string, other: ChannelId)
    requires JoinVoiceChannel(t, userId, guildId, channelId, channelType, sessionId, username,
                              userLimit, selfMute, selfDeaf, livekitUrl).Ok?
    ensures var t' := JoinVoiceChannel(t, userId, guildId, channelId, channelType, sessionId, username,
                                       userLimit, selfMute, selfDeaf, livekitUrl).value.table;
            && (LimitApplies(userLimit) ==> CountByChannel(t', channelId) <= userLimit.value)
            && (other != channelId ==> CountByChannel(t', other) <= CountByChannel(t, other))
            && CountByChannel(t', channelId) <= CountByChannel(t, channelId) + 1
  {
    var cleared := DeleteByUserAndGuild(t, userId, guildId);
    var mute, deaf := selfMute.GetOr(false), selfDeaf.GetOr(false);
    InsertCount(cleared, userId, guildId, channelId, sessionId, mute, deaf, channelId);
    InsertCount(cleared, userId, guildId, channelId, sessionId, mute, deaf, other);
    DeleteDoesNotRaiseCount(t, userId, guildId, channelId);
    DeleteDoesNotRaiseCount(t, userId, guildId, other);
  }

  /** A rejected join (either rejection) changes nothing: the caller keeps
      its table, so in particular a prior membership survives a full
      channel. A join into a full channel is rejected even when the user's
      own prior row was in another channel. */
  lemma FullChannelRejectsNewcomer(t: Table, userId: UserId, guildId: GuildId, channelId: ChannelId,
                                   channelType: int, sessionId: string, username: string,
                                   limit: int, livekitUrl: string)
    requires IsVoiceChannelType(channelType) && limit > 0
    requires VoiceKey(userId, guildId) !in ChannelKeys(t, channelId)
    requires CountByChannel(t, channelId) >= limit
    ensures JoinVoiceChannel(t, userId, guildId, channelId, channelType, sessionId, username,
                             Some(limit), None, None, livekitUrl) == Err(ChannelFull)
  {
    ChannelKeysAfterDelete(t, VoiceKey(userId, guildId), channelId);
    assert DeleteByUserAndGuild(t, userId, guildId) == t - {VoiceKey(userId, guildId)};
  }

  /** The prior row and the result of `leaveVoiceChannel`. */
  datatype Left = Left(table: Table, previous: Option<VoiceState>)

  /** `leaveVoiceChannel`: removes the row and returns it; with no row it
      returns null and changes nothing. */
  function LeaveVoiceChannel(t: Table, userId: UserId, guildId: GuildId): (r: Left)
    ensures VoiceKey(userId, guildId) !in t ==> r == Left(t, None)
    ensures VoiceKey(userId, guildId) in t ==>
      r.previous == Some(t[VoiceKey(userId, guildId)]) && r.table == DeleteByUserAndGuild(t, userId, guildId)
    ensures VoiceKey(userId, guildId) !in r.table
  {
    match FindByUserAndGuild(t, userId, guildId)
    case None => Left(t, None)
    case Some(existing) => Left(DeleteByUserAndGuild(t, userId, guildId), Some(existing))
  }

  /** Leaving twice is leaving once: the second leave returns null and
      changes nothing. */
  lemma LeaveIsIdempotent(t: Table, userId: UserId, guildId: GuildId)
    ensures var once := LeaveVoiceChannel(t, userId, guildId);
            LeaveVoiceChannel(once.table, userId, guildId) == Left(once.table, None)
  {
  }

  /** Join then leave of the same pair removes the membership the join
      created, and every other row is as it was before the join. */
  lemma JoinThenLeave(t: Table, userId: UserId, guildId: GuildId, channelId: ChannelId,
                      channelType: int, sessionId: string, username: string,
                      userLimit: Option<int>, selfMute: Option<bool>, selfDeaf: Option<bool>,
                      livekitUrl: string)
    requires JoinVoiceChannel(t, userId, guildId, channelId, channelType, sessionId, username,
                              userLimit, selfMute, selfDeaf, livekitUrl).Ok?
    ensures var j := JoinVoiceChannel(t, userId, guildId, channelId, channelType, sessionId, username,
                                      userLimit, selfMute, selfDeaf, livekitUrl).value;
            var l := LeaveVoiceChannel(j.table, userId, guildId);
            && l.previous.Some? && l.previous.value.sessionId == sessionId
            && l.table == t - {VoiceKey(userId, guildId)}
  {
    var j := JoinVoiceChannel(t, userId, guildId, channelId, channelType, sessionId, username,
                              userLimit, selfMute, selfDeaf, livekitUrl).value;
    var l := LeaveVoiceChannel(j.table, userId, guildId);
    assert l.table == t - {VoiceKey(userId, guildId)} by {
      assert l.table.Keys == (t - {VoiceKey(userId, guildId)}).Keys;
    }
  }

  /** A change applied to one row. */
  datatype Changed = Changed(table: Table, row: VoiceState)

  /** The self-state columns a client may change. */
  datatype SelfStatePatch = SelfStatePatch(selfMute: Option<bool>, selfDeaf: Option<bool>,
                                           selfStream: Option<bool>, selfVideo: Option<bool>)
  {
    function AsPatch(): VoicePatch {
      VoicePatch(selfMute, selfDeaf, selfStream, selfVideo, None, None, None)
    }

    predicate IsEmpty() {
      selfMute.None? && selfDeaf.None? && selfStream.None? && selfVideo.None?
    }
  }

  /** The server-imposed columns a moderator may change. */
  datatype ServerStatePatch = ServerStatePatch(mute: Option<bool>, deaf: Option<bool>)
  {
    function AsPatch(): VoicePatch {
      VoicePatch(None, None, None, None, mute, deaf, None)
    }

    predicate IsEmpty() {
      mute.None? && deaf.None?
    }
  }

  /** `updateVoiceState`: only the supplied self-state columns of that one row
      change; 404 when the user has no row in the guild. */
  function UpdateVoiceState(t: Table, userId: UserId, guildId: GuildId, patch: SelfStatePatch): (r: Result<Changed>)
    ensures r.Err? <==> VoiceKey(userId, guildId) !in t
    ensures r.Err? ==> r.error == NotInVoiceChannel
    ensures r.Ok? ==>
      && Patched(t[VoiceKey(userId, guildId)], patch.AsPatch(), r.value.row)
      && r.value.table == t[VoiceKey(userId, guildId) := r.value.row]
    // server-imposed flags and the stage flag are never touched
    ensures r.Ok? ==>
      var prev := t[VoiceKey(userId, guildId)];
      r.value.row.mute == prev.mute && r.value.row.deaf == prev.deaf && r.value.row.suppress == prev.suppress
  {
    var u := Update(t, userId, guildId, patch.AsPatch());
    if u.row.None? then Err(NotInVoiceChannel) else Ok(Changed(u.table, u.row.value))
  }

  /** `serverMuteDeafen`: only the supplied `mute` / `deaf` columns of that
      one row change; 404 when the user has no row in the guild. */
  function ServerMuteDeafen(t: Table, userId: UserId, guildId: GuildId, patch: ServerStatePatch): (r: Result<Changed>)
    ensures r.Err? <==> VoiceKey(userId, guildId) !in t
    ensures r.Err? ==> r.error == UserNotInVoiceChannel
    ensures r.Ok? ==>
      && Patched(t[VoiceKey(userId, guildId)], patch.AsPatch(), r.value.row)
      && r.value.table == t[VoiceKey(userId, guildId) := r.value.row]
    // the user's own flags are never touched
    ensures r.Ok? ==>
      var prev := t[VoiceKey(userId, guildId)];
      && r.value.row.selfMute == prev.selfMute && r.value.row.selfDeaf == prev.selfDeaf
      && r.value.row.selfStream == prev.selfStream && r.value.row.selfVideo == prev.selfVideo
  {
    var u := Update(t, userId, guildId, patch.AsPatch());
    if u.row.None? then Err(UserNotInVoiceChannel) else Ok(Changed(u.table, u.row.value))
  }

  /** Updates never move a user between channels or change a table's
      channel counts. */
  lemma UpdatesKeepChannelCounts(t: Table, userId: UserId, guildId: GuildId, patch: VoicePatch, channelId: ChannelId)
    ensures CountByChannel(Update(t, userId, guildId, patch).table, channelId) == CountByChannel(t, channelId)
  {
    assert ChannelKeys(Update(t, userId, guildId, patch).table, channelId) == ChannelKeys(t, channelId);
  }

  /** `getChannelVoiceStates`: the rows of one channel. */
  function GetChannelVoiceStates(t: Table, channelId: ChannelId): (r: Table)
    ensures forall k :: k in r <==> k in t && t[k].channelId == channelId
    ensures forall k :: k in r ==> r[k] == t[k]
  {
    FindByChannel(t, channelId)
  }
}
