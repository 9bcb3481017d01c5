/** Guild event dispatch: an event is published as `{event, data}` on the
    guild's pub/sub channel, and appended to the guild's 60-second event log
    (a sorted set scored by time) from which entries older than the window are
    pruned. Publishing is modelled as appending to a list of publications;
    delivery is the gateway's relay. */
module Dispatch {
  import opened Common
  import opened Schema
  import opened VoiceStateService

  /** The `data` of an event, one variant per payload shape the handlers send. */
  datatype EventData =
    | JoinedState(state: VoiceState, token: MediaGrant, livekitUrl: string)
    | Row(row: VoiceState)
    | LeftChannel(userId: UserId, guildId: GuildId, sessionId: string)
    | SuppressChanged(userId: UserId, guildId: GuildId, channelId: ChannelId, suppress: bool)
    | SpeakRequested(userId: UserId, guildId: GuildId, channelId: ChannelId, requestedAt: int)
    | Stage(instance: StageInstance)
    | Sound(sound: SoundboardSound)
    | SoundDeleted(soundId: string, guildId: GuildId)
    | ChannelEffect(channelId: ChannelId, guildId: GuildId, userId: UserId, soundId: string)

  /** The published payload, the JSON encoding of `{event, data}`; the
      encoding itself is not modelled. */
  datatype Envelope = Envelope(event: string, data: EventData)

  const VoiceStateUpdate: string := "VOICE_STATE_UPDATE"
  const StageInstanceCreate: string := "STAGE_INSTANCE_CREATE"
  const StageInstanceUpdate: string := "STAGE_INSTANCE_UPDATE"
  const StageInstanceDelete: string := "STAGE_INSTANCE_DELETE"
  const SoundCreate: string := "GUILD_SOUNDBOARD_SOUND_CREATE"
  const SoundUpdate: string := "GUILD_SOUNDBOARD_SOUND_UPDATE"
  const SoundDelete: string := "GUILD_SOUNDBOARD_SOUND_DELETE"
  const ChannelEffectSend: string := "VOICE_CHANNEL_EFFECT_SEND"

  const ChannelPrefix: string := "gateway:guild:"
  const LogKeyPrefix: string := "guild_events:"
  const RetentionMs: int := 60000

  /** The pub/sub channel of a guild. */
  function GuildChannel(guildId: GuildId): string {
    ChannelPrefix + guildId
  }

  /** The sorted-set key of a guild's event log. */
  function LogKey(guildId: GuildId): string {
    LogKeyPrefix + guildId
  }

  // ---------------------------------------------------------------------
  // Recovering the guild from a channel name
  // ---------------------------------------------------------------------

  /** `pat` occurs in `s` at position `i`. */
  predicate OccursAt(s: string, pat: string, i: nat) {
    i + |pat| <= |s| && s[i..i + |pat|] == pat
  }

  /** The position of the first occurrence of `pat` in `s`. */
  function IndexOf(s: string, pat: string): (r: Option<nat>)
    ensures r.Some? ==> OccursAt(s, pat, r.value)
    ensures r.Some? ==> forall i: nat :: i < r.value ==> !OccursAt(s, pat, i)
    ensures r.None? ==> forall i: nat :: !OccursAt(s, pat, i)
    decreases |s|
  {
    if OccursAt(s, pat, 0) then Some(0)
    else if |s| == 0 then None
    else
      match IndexOf(s[1..], pat)
      case None =>
        assert forall i: nat :: !OccursAt(s, pat, i) by {
          forall i: nat ensures !OccursAt(s, pat, i) {
            if i > 0 { OccursAtTail(s, pat, i - 1); }
          }
        }
        None
      case Some(j) =>
        assert forall i: nat :: i < j + 1 ==> !OccursAt(s, pat, i) by {
          forall i: nat | i < j + 1 ensures !OccursAt(s, pat, i) {
            if i > 0 { OccursAtTail(s, pat, i - 1); }
          }
        }
        OccursAtTail(s, pat, j);
        Some(j + 1)
  }

  /** An occurrence one position into `s` is an occurrence in its tail. */
  lemma OccursAtTail(s: string, pat: string, i: nat)
    requires |s| > 0
    ensures OccursAt(s, pat, i + 1) <==> OccursAt(s[1..], pat, i)
  {
    if i + 1 + |pat| <= |s| {
      assert s[i + 1..i + 1 + |pat|] == s[1..][i..i + |pat|];
    }
  }

  /** `s.replace(pat, rep)` with a string pattern: only the first occurrence
      is replaced, wherever it is. */
  function ReplaceFirst(s: string, pat: string, rep: string): string {
    match IndexOf(s, pat)
    case None => s
    case Some(i) => s[..i] + rep + s[i + |pat|..]
  }

  /** The channels the gateway's pattern subscription `gateway:guild:*`
      delivers. */
  predicate MatchesGuildPattern(channel: string) {
    |ChannelPrefix| <= |channel| && channel[..|ChannelPrefix|] == ChannelPrefix
  }

  /** Stripping the prefix off a guild's channel, as the gateway does, gives
      back the guild id. */
  lemma StripGuildChannel(guildId: GuildId)
    ensures MatchesGuildPattern(GuildChannel(guildId))
    ensures ReplaceFirst(GuildChannel(guildId), ChannelPrefix, "") == guildId
  {
    var c := GuildChannel(guildId);
    assert OccursAt(c, ChannelPrefix, 0);
    assert c[|ChannelPrefix|..] == guildId;
  }

  /** Conversely, every channel the subscription delivers is the channel of
      the guild id the gateway recovers from it. */
  lemma GuildChannelOfStripped(channel: string)
    requires MatchesGuildPattern(channel)
    ensures GuildChannel(ReplaceFirst(channel, ChannelPrefix, "")) == channel
  {
    assert OccursAt(channel, ChannelPrefix, 0);
    assert channel == channel[..|ChannelPrefix|] + channel[|ChannelPrefix|..];
  }

  // ---------------------------------------------------------------------
  // The publication list and the event log
  // ---------------------------------------------------------------------

  /** A log member, the string `"<now>:<payload>"`. */
  datatype LogMember = LogMember(at: int, payload: Envelope)

  /** A sorted set: each member with its score. */
  type EventLog = map<LogMember, int>

  datatype Publication = Publication(channel: string, payload: Envelope)

  /** Everything published so far, in order, and the event logs by key. */
  datatype Bus = Bus(published: seq<Publication>, logs: map<string, EventLog>)

  function LogAt(bus: Bus, key: string): EventLog {
    if key in bus.logs then bus.logs[key] else map[]
  }

  /** `ZADD key score member`: adds the member, or moves it to the new score. */
  function ZAdd(log: EventLog, member: LogMember, score: int): (r: EventLog)
    ensures member in r && r[member] == score
    ensures forall m :: m != member ==> (m in r <==> m in log) && (m in log ==> r[m] == log[m])
  {
    log[member := score]
  }

  /** `ZREMRANGEBYSCORE key -inf max`: removes every member scored at most
      `max` (the bound is inclusive). */
  function ZRemRangeByScore(log: EventLog, max: int): (r: EventLog)
    ensures forall m :: m in r <==> m in log && log[m] > max
    ensures forall m :: m in r ==> r[m] == log[m]
  {
    map m | m in log && log[m] > max :: log[m]
  }

  /** The entry just added is scored `now`, strictly above the pruning bound,
      so adding then pruning and pruning then adding give the same log: the
      order in which the two commands of one dispatch run does not matter,
      and the new entry survives either way. */
  lemma PruneAndAddCommute(log: EventLog, member: LogMember, now: int)
    ensures ZRemRangeByScore(ZAdd(log, member, now), now - RetentionMs) ==
            ZAdd(ZRemRangeByScore(log, now - RetentionMs), member, now)
    ensures member in ZRemRangeByScore(ZAdd(log, member, now), now - RetentionMs)
  {
    var a := ZRemRangeByScore(ZAdd(log, member, now), now - RetentionMs);
    var b := ZAdd(ZRemRangeByScore(log, now - RetentionMs), member, now);
    assert a.Keys == b.Keys;
  }

  /** `dispatchGuild` of the shared utility: publish on the guild channel,
      add `"<now>:<payload>"` scored `now` to the guild's log, and prune
      entries scored at or below `now - 60000`. */
  function DispatchGuild(bus: Bus, guildId: GuildId, event: string, data: EventData, now: int): (r: Bus)
    ensures r.published == bus.published + [Publication(GuildChannel(guildId), Envelope(event, data))]
    ensures LogKey(guildId) in r.logs
    ensures var log := r.logs[LogKey(guildId)];
            && LogMember(now, Envelope(event, data)) in log
            && log[LogMember(now, Envelope(event, data))] == now
            && (forall m :: m in log ==> log[m] > now - RetentionMs)
            && (forall m :: m in LogAt(bus, LogKey(guildId)) && LogAt(bus, LogKey(guildId))[m] > now - RetentionMs
                  ==> m in log)
            // and nothing else: every other entry was already there, at its old score
            && (forall m :: m in log ==>
                  m == LogMember(now, Envelope(event, data)) ||
                  (m in LogAt(bus, LogKey(guildId)) && log[m] == LogAt(bus, LogKey(guildId))[m]))
    ensures forall key :: key != LogKey(guildId) ==> LogAt(r, key) == LogAt(bus, key)
  {
    var payload := Envelope(event, data);
    var key := LogKey(guildId);
    var log := ZRemRangeByScore(ZAdd(LogAt(bus, key), LogMember(now, payload), now), now - RetentionMs);
    Bus(bus.published + [Publication(GuildChannel(guildId), payload)], bus.logs[key := log])
  }

  /** The stage routes' own `dispatchGuild`: it only publishes and does not
      touch the event log. */
  function PublishOnly(bus: Bus, guildId: GuildId, event: string, data: EventData): (r: Bus)
    ensures r.published == bus.published + [Publication(GuildChannel(guildId), Envelope(event, data))]
    ensures r.logs == bus.logs
  {
    Bus(bus.published + [Publication(GuildChannel(guildId), Envelope(event, data))], bus.logs)
  }

  /** Whether `bus'` is `bus` with exactly this event published (the logs may
      differ). */
  predicate PublishedOne(bus: Bus, bus': Bus, guildId: GuildId, event: string, data: EventData) {
    bus'.published == bus.published + [Publication(GuildChannel(guildId), Envelope(event, data))]
  }
}
