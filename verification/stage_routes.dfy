/** The HTTP routes of stage instances: body validation, the 404 guard of the
    read, and which event each successful write announces. These routes use
    their own publish-only dispatch, which does not write the guild's event
    log; a request to speak goes through the service's full dispatch. A
    rejected request (validation or service error) answers the error's
    status and leaves every table and the bus as they were. */
module StageRoutes {
  import opened Common
  import opened Schema
  import opened VoiceStateRepository
  import opened Dispatch
  import opened StageService

  const MaxTopicLength: nat := 120

  /** `z.string().min(1).max(120)`. */
  predicate ValidTopic(topic: string) {
    1 <= |topic| <= MaxTopicLength
  }

  /** `z.number().int().min(1).max(2).optional()`. */
  predicate ValidPrivacy(privacyLevel: Option<int>) {
    privacyLevel.None? || PrivacyPublic <= privacyLevel.value <= PrivacyGuildOnly
  }

  /** What the routes read and write: the stage table, the voice table and
      the bus. */
  datatype State = State(stages: StageTable, voice: Table, bus: Bus)


  datatype CreateBody = CreateBody(
    guildId: GuildId,
    channelId: ChannelId,
    topic: string,
    privacyLevel: Option<int>,
    sendStartNotification: Option<bool>,
    guildScheduledEventId: Option<string>)

  /** `POST /stage-instances` with the generated id. */
  function PostStageInstance(st: State, body: CreateBody, id: string): (r: Reply<StageInstance, State>)
    ensures !ValidTopic(body.topic) || !ValidPrivacy(body.privacyLevel) ==> r == Reject(ValidationError, st)
    ensures r.status == 201 <==>
      && ValidTopic(body.topic) && ValidPrivacy(body.privacyLevel)
      && CreateStageInstance(st.stages, id, body.guildId, body.channelId, body.topic,
                             body.privacyLevel, body.guildScheduledEventId).Ok?
    ensures r.status == 201 ==>
      var created := CreateStageInstance(st.stages, id, body.guildId, body.channelId, body.topic,
                                         body.privacyLevel, body.guildScheduledEventId).value;
      && r.state == State(created.stages, st.voice, PublishOnly(st.bus, body.guildId, StageInstanceCreate, Stage(created.instance)))
      && r.body == Some(created.instance)
    ensures r.status != 201 ==> r.state == st && r.status >= 400
  {
    if !ValidTopic(body.topic) || !ValidPrivacy(body.privacyLevel) then Reject(ValidationError, st)
    else
      match CreateStageInstance(st.stages, id, body.guildId, body.channelId, body.topic,
                                body.privacyLevel, body.guildScheduledEventId)
      case Err(e) => Reject(e, st)
      case Ok(created) =>
        Reply(201, Some(created.instance),
              State(created.stages, st.voice, PublishOnly(st.bus, body.guildId, StageInstanceCreate, Stage(created.instance))))
  }

  /** `GET /stage-instances/:channelId`. */
  function GetStageInstanceRoute(st: State, channelId: ChannelId): (r: Reply<StageInstance, State>)
    ensures r.state == st
    ensures r.status == 404 <==> forall i :: 0 <= i < |st.stages| ==> st.stages[i].channelId != channelId
    ensures r.status != 404 ==> r.status == 200 && r.body.Some? && r.body.value in st.stages &&
                                r.body.value.channelId == channelId
  {
    match GetStageInstance(st.stages, channelId)
    case None => Reply(404, None, st)
    case Some(instance) => Reply(200, Some(instance), st)
  }

  datatype UpdateBody = UpdateBody(guildId: GuildId, topic: Option<string>, privacyLevel: Option<int>)

  /** The update body's schema. */
  predicate ValidUpdate(body: UpdateBody) {
    (body.topic.None? || ValidTopic(body.topic.value)) && ValidPrivacy(body.privacyLevel)
  }

  /** `PATCH /stage-instances/:channelId`: announced to the guild the body
      names, whichever guild the instance belongs to. Unlike the other update
      routes it has no empty-body guard: a body with only `guildId` reaches
      the service and fails there with 500. */
  function PatchStageInstance(st: State, channelId: ChannelId, body: UpdateBody): (r: Reply<StageInstance, State>)
    ensures !ValidUpdate(body) ==> r == Reject(ValidationError, st)
    ensures ValidUpdate(body) && body.topic.None? && body.privacyLevel.None? ==>
      r == Reject(EmptyUpdate, st) && r.status == 500
    ensures r.status == 200 <==>
      && ValidUpdate(body) && (body.topic.Some? || body.privacyLevel.Some?)
      && GetStageInstance(st.stages, channelId).Some?
    ensures r.status == 200 ==>
      var updated := UpdateStageInstance(st.stages, channelId, body.topic, body.privacyLevel);
      && updated.Ok?
      && r.state == State(updated.value.stages, st.voice,
                          PublishOnly(st.bus, body.guildId, StageInstanceUpdate, Stage(updated.value.instance)))
      && r.body == Some(updated.value.instance)
    ensures r.status != 200 ==> r.state == st && r.status >= 400
    ensures (ValidUpdate(body) && (body.topic.Some? || body.privacyLevel.Some?) &&
             GetStageInstance(st.stages, channelId).None?) ==> r == Reject(StageNotFound, st)
  {
    if !ValidUpdate(body) then Reject(ValidationError, st)
    else
      match UpdateStageInstance(st.stages, channelId, body.topic, body.privacyLevel)
      case Err(e) => Reject(e, st)
      case Ok(updated) =>
        Reply(200, Some(updated.instance),
              State(updated.stages, st.voice, PublishOnly(st.bus, body.guildId, StageInstanceUpdate, Stage(updated.instance))))
  }

  /** `DELETE /stage-instances/:channelId`. */
  function DeleteStageInstanceRoute(st: State, channelId: ChannelId, guildId: GuildId): (r: Reply<StageInstance, State>)
    ensures r.status == 204 <==> GetStageInstance(st.stages, channelId).Some?
    ensures r.status == 204 ==>
      var deleted := DeleteStageInstance(st.stages, channelId).value;
      r.state == State(deleted.stages, st.voice, PublishOnly(st.bus, guildId, StageInstanceDelete, Stage(deleted.instance)))
    ensures r.status != 204 ==> r == Reject(StageNotFound, st)
  {
    match DeleteStageInstance(st.stages, channelId)
    case Err(e) => Reject(e, st)
    case Ok(deleted) =>
      Reply(204, None, State(deleted.stages, st.voice, PublishOnly(st.bus, guildId, StageInstanceDelete, Stage(deleted.instance))))
  }

  /** `POST /stage-instances/:channelId/request-to-speak`. */
  function RequestToSpeakRoute(st: State, channelId: ChannelId, userId: UserId, guildId: GuildId, now: int): (r: Reply<StageInstance, State>)
    ensures r.status == 204 <==> InChannel(st.voice, userId, guildId, channelId)
    ensures r.status != 204 ==> r == Reject(NotInThisChannel, st)
    ensures r.state.stages == st.stages && r.state.voice == st.voice
    // the request, with its time, is published and logged through the full dispatch
    ensures r.status == 204 ==>
      r.state.bus == DispatchGuild(st.bus, guildId, VoiceStateUpdate, SpeakRequested(userId, guildId, channelId, now), now)
    ensures r.status == 204 ==>
      PublishedOne(st.bus, r.state.bus, guildId, VoiceStateUpdate, SpeakRequested(userId, guildId, channelId, now))
  {
    match RequestToSpeak(st.voice, st.bus, userId, guildId, channelId, now)
    case Err(e) => Reject(e, st)
    case Ok(bus) => Reply(204, None, st.(bus := bus))
  }

  /** `POST /stage-instances/:channelId/speakers/:userId`: always 204, and
      the `suppress: false` announcement is made whether or not a row
      matched. */
  function InviteToSpeakRoute(st: State, channelId: ChannelId, userId: UserId, guildId: GuildId): (r: Reply<StageInstance, State>)
    ensures r.status == 204
    ensures r.state == State(st.stages, InviteToSpeak(st.voice, userId, guildId, channelId),
                             PublishOnly(st.bus, guildId, VoiceStateUpdate, SuppressChanged(userId, guildId, channelId, false)))
  {
    Reply(204, None, State(st.stages, InviteToSpeak(st.voice, userId, guildId, channelId),
                           PublishOnly(st.bus, guildId, VoiceStateUpdate, SuppressChanged(userId, guildId, channelId, false))))
  }

  /** `DELETE /stage-instances/:channelId/speakers/:userId`: always 204, and
      the `suppress: true` announcement is made whether or not a row
      matched. */
  function MoveToAudienceRoute(st: State, channelId: ChannelId, userId: UserId, guildId: GuildId): (r: Reply<StageInstance, State>)
    ensures r.status == 204
    ensures r.state == State(st.stages, MoveToAudience(st.voice, userId, guildId, channelId),
                             PublishOnly(st.bus, guildId, VoiceStateUpdate, SuppressChanged(userId, guildId, channelId, true)))
  {
    Reply(204, None, State(st.stages, MoveToAudience(st.voice, userId, guildId, channelId),
                           PublishOnly(st.bus, guildId, VoiceStateUpdate, SuppressChanged(userId, guildId, channelId, true))))
  }

  /** The announcement of an invitation does not depend on a row having
      matched: a user outside the channel is announced as a speaker while
      the voice table stays as it was. */
  lemma InviteAnnouncedWithoutRow(st: State, channelId: ChannelId, userId: UserId, guildId: GuildId)
    requires !InChannel(st.voice, userId, guildId, channelId)
    ensures var r := InviteToSpeakRoute(st, channelId, userId, guildId);
            && r.state.voice == st.voice
            && PublishedOne(st.bus, r.state.bus, guildId, VoiceStateUpdate, SuppressChanged(userId, guildId, channelId, false))
  {
  }

  /** The stage writes publish without touching any guild's event log; a
      request to speak does add to the log. */
  lemma StageWritesSkipEventLog(st: State, body: CreateBody, id: string, channelId: ChannelId, update: UpdateBody,
                                guildId: GuildId, userId: UserId, now: int)
    ensures PostStageInstance(st, body, id).state.bus.logs == st.bus.logs
    ensures PatchStageInstance(st, channelId, update).state.bus.logs == st.bus.logs
    ensures DeleteStageInstanceRoute(st, channelId, guildId).state.bus.logs == st.bus.logs
    ensures InviteToSpeakRoute(st, channelId, userId, guildId).state.bus.logs == st.bus.logs
    ensures RequestToSpeakRoute(st, channelId, userId, guildId, now).status == 204 ==>
      LogKey(guildId) in RequestToSpeakRoute(st, channelId, userId, guildId, now).state.bus.logs
  {
  }

  /** Across a sequence of creates, however they are answered, the table
      keeps at most one instance per channel. */
  lemma CreatesKeepOnePerChannel(st: State, body: CreateBody, id: string)
    requires OnePerChannel(st.stages)
    ensures OnePerChannel(PostStageInstance(st, body, id).state.stages)
  {
  }
}
