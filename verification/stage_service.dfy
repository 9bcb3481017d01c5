/** Stage instances (a live session on a stage channel, with a topic) and the
    speaker / audience split of a stage channel's members. The
    `stage_instances` table is a sequence of rows in storage order, since
    the service reads "the first row on a channel"; the create-time check
    keeps at most one row per channel. */
module StageService {
  import opened Common
  import opened Schema
  import opened VoiceStateRepository
  import opened Dispatch

  type StageTable = seq<StageInstance>

  const AlreadyExists: Failure := ApiError(400, "Stage instance already exists for this channel")
  const StageNotFound: Failure := ApiError(404, "Stage instance not found")
  const NotInThisChannel: Failure := ApiError(400, "User is not in this voice channel")

  /** No two rows share a channel. */
  ghost predicate OnePerChannel(s: StageTable) {
    forall i, j :: 0 <= i < j < |s| ==> s[i].channelId != s[j].channelId
  }

  /** No row has this id yet. */
  predicate IdFree(s: StageTable, id: string) {
    forall i :: 0 <= i < |s| ==> s[i].id != id
  }

  /** The position of the first row on a channel. */
  function FirstOnChannel(s: StageTable, channelId: ChannelId): (r: Option<nat>)
    ensures r.Some? ==> r.value < |s| && s[r.value].channelId == channelId
    ensures r.Some? ==> forall i :: 0 <= i < r.value ==> s[i].channelId != channelId
    ensures r.None? ==> forall i :: 0 <= i < |s| ==> s[i].channelId != channelId
  {
    if |s| == 0 then None
    else if s[0].channelId == channelId then Some(0)
    else
      match FirstOnChannel(s[1..], channelId)
      case None => None
      case Some(i) => Some(i + 1)
  }

  /** `getStageInstance`: the instance of a channel, or null. */
  function GetStageInstance(s: StageTable, channelId: ChannelId): (r: Option<StageInstance>)
    ensures r.None? <==> forall i :: 0 <= i < |s| ==> s[i].channelId != channelId
    ensures r.Some? ==> r.value in s && r.value.channelId == channelId
    // with one row per channel, it is that row
    ensures OnePerChannel(s) ==> forall i :: 0 <= i < |s| && s[i].channelId == channelId ==> r == Some(s[i])
  {
    match FirstOnChannel(s, channelId)
    case None => None
    case Some(i) => Some(s[i])
  }

  /** `getGuildStageInstances`: the guild's instances, in storage order. */
  function GetGuildStageInstances(s: StageTable, guildId: GuildId): (r: StageTable)
    ensures forall x :: x in r <==> x in s && x.guildId == guildId
    ensures |r| <= |s|
  {
    if |s| == 0 then []
    else
      var rest := GetGuildStageInstances(s[1..], guildId);
      assert forall x :: x in s <==> x == s[0] || x in s[1..];
      if s[0].guildId == guildId then [s[0]] + rest else rest
  }

  /** A write and the instance it returns. */
  datatype StageWrite = StageWrite(stages: StageTable, instance: StageInstance)

  /** `createStageInstance` with the freshly generated `id`. A channel that
      already has an instance is refused with 400; an id already in use is a
      primary-key violation. The new row takes the column defaults for what
      is not given: privacy level 2 (guild only), no scheduled event, and
      discoverability enabled. The start-notification flag is accepted and
      ignored. */
  function CreateStageInstance(s: StageTable, id: string, guildId: GuildId, channelId: ChannelId, topic: string,
                               privacyLevel: Option<int>, guildScheduledEventId: Option<string>): (r: Result<StageWrite>)
    ensures GetStageInstance(s, channelId).Some? ==> r == Err(AlreadyExists)
    ensures GetStageInstance(s, channelId).None? && !IdFree(s, id) ==> r == Err(StoreError(DuplicateEntry))
    ensures r.Ok? <==> GetStageInstance(s, channelId).None? && IdFree(s, id)
    ensures r.Ok? ==>
      && r.value.stages == s + [r.value.instance]
      && r.value.instance == StageInstance(id, guildId, channelId, topic, privacyLevel.GetOr(PrivacyGuildOnly),
                                           guildScheduledEventId, false)
    ensures r.Ok? && OnePerChannel(s) ==> OnePerChannel(r.value.stages)
  {
    if GetStageInstance(s, channelId).Some? then Err(AlreadyExists)
    else if !IdFree(s, id) then Err(StoreError(DuplicateEntry))
    else
      var instance := StageInstance(id, guildId, channelId, topic, privacyLevel.GetOr(PrivacyGuildOnly),
                                    guildScheduledEventId, false);
      Ok(StageWrite(s + [instance], instance))
  }

  /** The supplied columns of an instance replaced. */
  function PatchStage(x: StageInstance, topic: Option<string>, privacyLevel: Option<int>): StageInstance {
    x.(topic := topic.GetOr(x.topic), privacyLevel := privacyLevel.GetOr(x.privacyLevel))
  }

  /** `updateStageInstance`: sets the supplied `topic` / `privacyLevel` on
      the rows of the channel and returns the first; 404 when there is none.
      No other column and no other row changes. With neither field supplied
      the statement has an empty `SET` list and fails, whether or not the
      channel has an instance. */
  function UpdateStageInstance(s: StageTable, channelId: ChannelId, topic: Option<string>,
                               privacyLevel: Option<int>): (r: Result<StageWrite>)
    ensures topic.None? && privacyLevel.None? ==> r == Err(EmptyUpdate)
    ensures r.Err? <==> (topic.None? && privacyLevel.None?) || GetStageInstance(s, channelId).None?
    ensures (topic.Some? || privacyLevel.Some?) && r.Err? ==> r.error == StageNotFound
    ensures r.Ok? ==>
      && |r.value.stages| == |s|
      && (forall i :: 0 <= i < |s| && s[i].channelId != channelId ==> r.value.stages[i] == s[i])
      && (forall i :: 0 <= i < |s| && s[i].channelId == channelId ==>
            r.value.stages[i] == PatchStage(s[i], topic, privacyLevel))
    ensures r.Ok? ==>
      var before := GetStageInstance(s, channelId).value;
      && r.value.instance == PatchStage(before, topic, privacyLevel)
      && GetStageInstance(r.value.stages, channelId) == Some(r.value.instance)
    ensures r.Ok? && OnePerChannel(s) ==> OnePerChannel(r.value.stages)
  {
    if topic.None? && privacyLevel.None? then Err(EmptyUpdate)
    else match FirstOnChannel(s, channelId)
    case None => Err(StageNotFound)
    case Some(i) =>
      var stages := seq(|s|, j requires 0 <= j < |s| =>
                          if s[j].channelId == channelId then PatchStage(s[j], topic, privacyLevel) else s[j]);
      assert FirstOnChannel(stages, channelId) == Some(i) by {
        var f := FirstOnChannel(stages, channelId);
        assert stages[i].channelId == channelId;
        assert f.Some? && f.value <= i;
        assert s[f.value].channelId == channelId;
      }
      Ok(StageWrite(stages, PatchStage(s[i], topic, privacyLevel)))
  }

  /** The rows not on a channel, in order. */
  function WithoutChannel(s: StageTable, channelId: ChannelId): (r: StageTable)
    ensures forall x :: x in r <==> x in s && x.channelId != channelId
    ensures OnePerChannel(s) ==> OnePerChannel(r)
    ensures (forall i :: 0 <= i < |s| ==> s[i].channelId != channelId) ==> r == s
  {
    if |s| == 0 then []
    else
      var rest := WithoutChannel(s[1..], channelId);
      assert forall x :: x in s <==> x == s[0] || x in s[1..];
      if s[0].channelId == channelId then rest
      else
        assert OnePerChannel(s) ==> OnePerChannel(s[1..]) && forall x :: x in rest ==> x.channelId != s[0].channelId by {
          if OnePerChannel(s) {
            forall x | x in rest ensures x.channelId != s[0].channelId {
              var k :| 0 <= k < |s[1..]| && s[1..][k] == x;
              assert s[k + 1] == x;
            }
          }
        }
        [s[0]] + rest
  }

  /** `deleteStageInstance`: removes the channel's rows and returns the
      first; 404 when there is none. */
  function DeleteStageInstance(s: StageTable, channelId: ChannelId): (r: Result<StageWrite>)
    ensures r.Err? <==> GetStageInstance(s, channelId).None?
    ensures r.Err? ==> r.error == StageNotFound
    ensures r.Ok? ==>
      && r.value.instance == GetStageInstance(s, channelId).value
      && GetStageInstance(r.value.stages, channelId).None?
      && (forall x :: x in r.value.stages <==> x in s && x.channelId != channelId)
    ensures r.Ok? && OnePerChannel(s) ==> OnePerChannel(r.value.stages)
  {
    match GetStageInstance(s, channelId)
    case None => Err(StageNotFound)
    case Some(instance) =>
      var stages := WithoutChannel(s, channelId);
      assert forall i :: 0 <= i < |stages| ==> stages[i] in stages;
      Ok(StageWrite(stages, instance))
  }

  /** Creating an instance and then reading or deleting it: the read finds
      it, and the delete returns it and restores the table. */
  lemma CreateThenGetThenDelete(s: StageTable, id: string, guildId: GuildId, channelId: ChannelId, topic: string,
                                privacyLevel: Option<int>, guildScheduledEventId: Option<string>)
    requires CreateStageInstance(s, id, guildId, channelId, topic, privacyLevel, guildScheduledEventId).Ok?
    ensures var c := CreateStageInstance(s, id, guildId, channelId, topic, privacyLevel, guildScheduledEventId).value;
            && GetStageInstance(c.stages, channelId) == Some(c.instance)
            && DeleteStageInstance(c.stages, channelId) == Ok(StageWrite(s, c.instance))
  {
    var c := CreateStageInstance(s, id, guildId, channelId, topic, privacyLevel, guildScheduledEventId).value;
    var f := FirstOnChannel(c.stages, channelId);
    assert c.stages[|s|] == c.instance;
    assert f.Some? && f.value == |s|;
    WithoutChannelOfAppended(s, c.instance, channelId);
  }

  /** Removing a channel from rows that do not use it, with one row that
      does appended, gives back the rows. */
  lemma {:induction false} WithoutChannelOfAppended(s: StageTable, x: StageInstance, channelId: ChannelId)
    requires forall i :: 0 <= i < |s| ==> s[i].channelId != channelId
    requires x.channelId == channelId
    ensures WithoutChannel(s + [x], channelId) == s
    decreases |s|
  {
    if |s| == 0 {
      assert s + [x] == [x];
      assert [x][1..] == [];
    } else {
      assert (s + [x])[1..] == s[1..] + [x];
      WithoutChannelOfAppended(s[1..], x, channelId);
      assert [s[0]] + s[1..] == s;
    }
  }

  // ---------------------------------------------------------------------
  // Speakers and audience
  // ---------------------------------------------------------------------

  /** The user's row in the guild is on this channel. */
  predicate InChannel(t: Table, userId: UserId, guildId: GuildId, channelId: ChannelId) {
    VoiceKey(userId, guildId) in t && t[VoiceKey(userId, guildId)].channelId == channelId
  }

  /** `requestToSpeak`: 400 unless the user is in this channel; otherwise a
      `VOICE_STATE_UPDATE` carrying the request time is dispatched. Only the
      bus is returned: the voice table is never written. */
  function RequestToSpeak(t: Table, bus: Bus, userId: UserId, guildId: GuildId, channelId: ChannelId,
                          now: int): (r: Result<Bus>)
    ensures r.Err? <==> !InChannel(t, userId, guildId, channelId)
    ensures r.Err? ==> r.error == NotInThisChannel
    ensures r.Ok? ==> PublishedOne(bus, r.value, guildId, VoiceStateUpdate,
                                   SpeakRequested(userId, guildId, channelId, now))
    ensures r.Ok? ==> LogKey(guildId) in r.value.logs &&
                      LogMember(now, Envelope(VoiceStateUpdate, SpeakRequested(userId, guildId, channelId, now)))
                        in r.value.logs[LogKey(guildId)]
  {
    if !InChannel(t, userId, guildId, channelId) then Err(NotInThisChannel)
    else Ok(DispatchGuild(bus, guildId, VoiceStateUpdate, SpeakRequested(userId, guildId, channelId, now), now))
  }

  /** Sets `suppress` on the user's row when it is on this channel; with no
      such row nothing changes and no error is raised. */
  function SetSuppress(t: Table, userId: UserId, guildId: GuildId, channelId: ChannelId, suppress: bool): (r: Table)
    ensures InChannel(t, userId, guildId, channelId) ==>
      r == t[VoiceKey(userId, guildId) := t[VoiceKey(userId, guildId)].(suppress := suppress)]
    ensures !InChannel(t, userId, guildId, channelId) ==> r == t
  {
    if InChannel(t, userId, guildId, channelId) then
      t[VoiceKey(userId, guildId) := t[VoiceKey(userId, guildId)].(suppress := suppress)]
    else t
  }

  /** `inviteToSpeak`: clears `suppress`. */
  function InviteToSpeak(t: Table, userId: UserId, guildId: GuildId, channelId: ChannelId): (r: Table)
    ensures InChannel(t, userId, guildId, channelId) ==>
      InChannel(r, userId, guildId, channelId) && !r[VoiceKey(userId, guildId)].suppress
    ensures forall k :: k != VoiceKey(userId, guildId) ==> (k in r <==> k in t) && (k in t ==> r[k] == t[k])
    ensures !InChannel(t, userId, guildId, channelId) ==> r == t
  {
    SetSuppress(t, userId, guildId, channelId, false)
  }

  /** `moveToAudience`: sets `suppress`. */
  function MoveToAudience(t: Table, userId: UserId, guildId: GuildId, channelId: ChannelId): (r: Table)
    ensures InChannel(t, userId, guildId, channelId) ==>
      InChannel(r, userId, guildId, channelId) && r[VoiceKey(userId, guildId)].suppress
    ensures forall k :: k != VoiceKey(userId, guildId) ==> (k in r <==> k in t) && (k in t ==> r[k] == t[k])
    ensures !InChannel(t, userId, guildId, channelId) ==> r == t
  {
    SetSuppress(t, userId, guildId, channelId, true)
  }

  /** `getSpeakers`: the users of the channel not suppressed. */
  function GetSpeakers(t: Table, channelId: ChannelId): (r: set<UserId>)
    ensures forall u :: u in r <==> exists k :: k in t && k.userId == u && t[k].channelId == channelId && !t[k].suppress
  {
    FindByChannelAndSuppress(t, channelId, false)
  }

  /** `getAudience`: the suppressed users of the channel. */
  function GetAudience(t: Table, channelId: ChannelId): (r: set<UserId>)
    ensures forall u :: u in r <==> exists k :: k in t && k.userId == u && t[k].channelId == channelId && t[k].suppress
  {
    FindByChannelAndSuppress(t, channelId, true)
  }

  /** Speakers and audience together are the channel's users. */
  lemma SpeakersAndAudienceCoverChannel(t: Table, channelId: ChannelId)
    ensures GetSpeakers(t, channelId) + GetAudience(t, channelId) == UsersOf(ChannelKeys(t, channelId))
  {
    SuppressPartitionsChannel(t, channelId);
  }

  /** An invited member becomes a speaker; a member moved to the audience
      joins it. */
  lemma InviteAndMoveTakeEffect(t: Table, userId: UserId, guildId: GuildId, channelId: ChannelId)
    requires InChannel(t, userId, guildId, channelId)
    ensures userId in GetSpeakers(InviteToSpeak(t, userId, guildId, channelId), channelId)
    ensures userId in GetAudience(MoveToAudience(t, userId, guildId, channelId), channelId)
  {
    var k := VoiceKey(userId, guildId);
    assert k in InviteToSpeak(t, userId, guildId, channelId);
    assert k in MoveToAudience(t, userId, guildId, channelId);
  }

  /** Moving an invited audience member back restores the table. */
  lemma MoveUndoesInvite(t: Table, userId: UserId, guildId: GuildId, channelId: ChannelId)
    requires InChannel(t, userId, guildId, channelId) && t[VoiceKey(userId, guildId)].suppress
    ensures MoveToAudience(InviteToSpeak(t, userId, guildId, channelId), userId, guildId, channelId) == t
  {
    var k := VoiceKey(userId, guildId);
    var back := MoveToAudience(InviteToSpeak(t, userId, guildId, channelId), userId, guildId, channelId);
    assert back[k] == t[k];
    assert back.Keys == t.Keys;
  }
}
