/** The rows of the service's tables, with their keys and column defaults. */
module Schema {
  import opened Common

  type UserId = string
  type GuildId = string
  type ChannelId = string

  /** A row of `voice_states`: one user's current occupancy of one voice room
      of one guild. */
  datatype VoiceState = VoiceState(
    userId: UserId,
    guildId: GuildId,
    channelId: ChannelId,
    sessionId: string,
    deaf: bool,
    mute: bool,
    selfDeaf: bool,
    selfMute: bool,
    selfStream: bool,
    selfVideo: bool,
    suppress: bool)

  /** The primary key of `voice_states`. */
  datatype VoiceKey = VoiceKey(userId: UserId, guildId: GuildId)

  function KeyOf(v: VoiceState): VoiceKey {
    VoiceKey(v.userId, v.guildId)
  }

  /** The row an insert of the given columns stores: every flag not given
      takes its column default, false. */
  function NewVoiceState(userId: UserId, guildId: GuildId, channelId: ChannelId, sessionId: string,
                         selfMute: bool, selfDeaf: bool): (v: VoiceState)
    ensures KeyOf(v) == VoiceKey(userId, guildId)
    ensures v.channelId == channelId && v.sessionId == sessionId
    ensures v.selfMute == selfMute && v.selfDeaf == selfDeaf
    ensures !v.deaf && !v.mute && !v.selfStream && !v.selfVideo && !v.suppress
  {
    VoiceState(userId, guildId, channelId, sessionId,
               deaf := false, mute := false, selfDeaf := selfDeaf, selfMute := selfMute,
               selfStream := false, selfVideo := false, suppress := false)
  }

  /** `privacy_level` defaults to 2 (guild only); 1 is public. */
  const PrivacyPublic: int := 1
  const PrivacyGuildOnly: int := 2

  /** A row of `stage_instances`, keyed by its snowflake `id`. */
  datatype StageInstance = StageInstance(
    id: string,
    guildId: GuildId,
    channelId: ChannelId,
    topic: string,
    privacyLevel: int,
    guildScheduledEventId: Option<string>,
    discoverableDisabled: bool)

  /** `volume` defaults to 100. */
  const DefaultVolume: int := 100

  /** A row of `soundboard_sounds`, keyed by its snowflake `id`; `createdAt`
      is the database clock at insertion. */
  datatype SoundboardSound = SoundboardSound(
    id: string,
    guildId: GuildId,
    name: string,
    volume: int,
    emojiId: Option<string>,
    emojiName: Option<string>,
    userId: Option<UserId>,
    available: bool,
    soundUrl: string,
    createdAt: int)

  /** A row of `user_soundboard_favorites`; the whole row is its primary key,
      so the table is a set of these. */
  datatype Favorite = Favorite(userId: UserId, soundId: string)
}
