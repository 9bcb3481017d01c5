# zent-voice in Dafny

zent-voice is a voice-presence service. It records which user sits in which voice channel of which guild (one `voice_states` row per user and guild). It hands out media-server tokens on join. It runs stage channels (speakers versus audience) and a per-guild soundboard with per-user favorites. Every change is announced to the guild over a pub/sub channel `gateway:guild:<id>`, and each announcement is also kept for 60 seconds in a sorted event log. A real-time gateway does three things:
- it authenticates sockets, using the internal API key or an HS256 JWT;
- it lets an identified session join and leave voice channels;
- it relays the guild channels to guild rooms.

This project models the core of the service as pure step functions over immutable state:

- **Tables.**
  - The voice-state table is a map keyed by `(userId, guildId)`.
  - Stage instances are a sequence of rows in storage order.
  - Sounds are a map keyed by id.
  - Favorites are a set of `(userId, soundId)` pairs.
- **Services and routes.** Each is a function from the tables (and the bus) to new tables, a result or an error, and the events published.
- **Gateway.** Each handler is one step from a registry of sockets and sessions and the voice-state table to new ones, plus the messages it emits.
- **Snowflake generator.** Its two-variable state steps over an explicit sequence of clock readings.
- **Errors.** A `Failure` carries the status its error handler answers with:
  - an `ApiError` answers its own status;
  - a validation (zod) error answers 400 (only the bounds checks are modelled; see "## Left out");
  - a store error answers 500.

Modules follow the source files:

| Module | Source |
|---|---|
| `Common` | shared wrappers, the route reply, and the status of `src/index.ts`'s error handler |
| `Snowflake` | `src/utils/snowflake.ts` |
| `Schema` | `src/db/schema.ts` |
| `VoiceStateRepository` | `src/repositories/voicestate.repository.ts` |
| `VoiceStateService` | `src/services/voicestate.ts` |
| `Dispatch` | `src/utils/dispatch.ts` |
| `GatewayAuth` | the token check and handshake of `src/gateway/index.ts` |
| `Gateway` | the rest of `src/gateway/index.ts` |
| `StageService` | `src/services/stage.ts` |
| `StageRoutes` | `src/routes/stage.ts` |
| `SoundboardService` | `src/services/soundboard.ts` |
| `SoundboardRoutes` | `src/routes/soundboard.ts` |
| `VoiceRoutes` | `src/routes/voice.ts` |

Behaviours of the code that the model keeps as written, and states in lemmas:

- **Stored versus returned `suppress`.** A join stores `suppress` from the column default (false). The state it returns sets `suppress` to `channelType == 13`. These are two distinct values.
- **The token is broadcast.** Both the gateway join and the REST join announce the whole joined state to the guild room, media token included.
- **Two session ids on leave.** The gateway's leave announcement carries the session's own session id. The REST leave carries the removed row's session id.
- **The reconnect race compares only session ids, and only the first.** A disconnect skips its cleanup exactly when the user's first remaining session, in the order sessions were registered, has a different session id (`Gateway.FirstRemainingSessionDecides`). A new socket that reuses the old session id does not stop the old socket's disconnect from removing the user's memberships (`Gateway.SameSessionIdStillCleansUp`).
- **An empty stage update reaches the database.** The stage update route has no empty-body guard. A body with neither `topic` nor `privacyLevel` produces an `UPDATE` with nothing to set, which fails with 500 and announces nothing.
- **Re-identify keeps rooms.** An identify on an already identified socket keeps the rooms of the earlier one.
- **Identify trusts the handshake signature.** Its user-id check reads the token's payload without checking the signature again.
- **Stage announcements follow the request body.**
  - Stage update and delete announce to the guild the request body names.
  - The stage routes' own dispatch publishes without writing the event log.
  - Invite-to-speak and move-to-audience announce even when no row matched.
- **Sound effects cross guilds.** `send-soundboard-sound` plays a sound of any guild in any guild.
- **No clock guard.** The snowflake generator has no guard against a clock that goes back. An id carries its millisecond in its highest bits, so ids of later milliseconds are larger; after the clock goes back, the generator issues a smaller id than the one before (`Snowflake.ClockRegressionIssuesSmallerId`). The model follows the code, so monotonicity is proved under a non-decreasing clock.

## Model

| member | source | states |
|---|---|---|
| Common.Reject | src/index.ts:42-62 | a rejected request answers its error's status, at least 400, with no body and nothing changed |
| Snowflake.DeriveFromHostname | src/utils/snowflake.ts:6-10 | the host-derived value is below the modulus, and a digest prefix already below it is kept as is |
| Snowflake.Xor5 | src/utils/snowflake.ts:21 | the exclusive-or of two five-bit values is itself a five-bit value |
| Snowflake.ResolvePartition | src/utils/snowflake.ts:12-22 | a configured `WORKER_ID` / `PROCESS_ID` is used as given; otherwise the worker is the host hash mod 32 and the process is below 32; the partition is valid whenever configured values are below 32 |
| Snowflake.DerivedProcessIdRecoversPid | src/utils/snowflake.ts:18-22 | without configuration, the worker and process partitions together determine the process id modulo 32 |
| Snowflake.CoLocatedProcessesGetDistinctPartitions | src/utils/snowflake.ts:12-22 | two processes on one host whose pids differ modulo 32 get different partitions |
| Snowflake.UnpackPack | src/utils/snowflake.ts:43 | timestamp, worker, process and sequence are each recovered from the packed id by shift and mask |
| Snowflake.PackAsWritten | src/utils/snowflake.ts:43 | the packing with nothing bounding the worker and process values keeps the sequence in the low twelve bits and never loses the timestamp |
| Snowflake.PackedFieldsAreDisjoint | src/utils/snowflake.ts:43 | with every field within its width, the or of the shifted fields equals their weighted sum and every field is recovered |
| Snowflake.WorkerThirtyTwoCollides | src/utils/snowflake.ts:43 | at an even timestamp, worker 32 packs to the id worker 0 packs one millisecond later |
| Snowflake.ConfiguredWorkerThirtyTwoCollides | src/utils/snowflake.ts:12-22 | a configured worker of 32 is accepted as is, and its ids collide with those of worker 0 |
| Snowflake.SingleProcessRepeatsId | src/utils/snowflake.ts:25-43 | a single process with worker 32 issues the same id at an even timestamp and the next one, with the same process and sequence |
| Snowflake.SingleProcessRepeatsIdAtTwo | src/utils/snowflake.ts:25-43 | the smallest case: milliseconds 2 and 3 under worker 32 both give the id `0xC00000` |
| Snowflake.CheckedPartition | src/utils/snowflake.ts:12-22 | configuration held to five bits: accepted exactly when configured values are below 32, then the same partition as the source, and valid |
| Snowflake.CheckedPartitionsNeverCollide | src/utils/snowflake.ts:12-43 | processes with different checked partitions never issue the same id |
| Snowflake.DistinctPartitionsNeverCollide | src/utils/snowflake.ts:43 | ids from different partitions are never equal, whatever their timestamps and sequences |
| Snowflake.PackOrder | src/utils/snowflake.ts:43 | within one partition, ids are ordered by (timestamp, sequence) |
| Snowflake.FirstAfter | src/utils/snowflake.ts:33-35 | the busy-wait stops at the first reading past the last timestamp, and no earlier reading passes it |
| Snowflake.Next | src/utils/snowflake.ts:27-45 | the sequence stays below 4096; same millisecond increments it mod 4096, a new one resets it to 0; on wrap no id is issued until a reading passes the last millisecond, and the id then takes the first such reading's millisecond; the new `lastTimestamp` is the id's timestamp field |
| Snowflake.NextIncreases | src/utils/snowflake.ts:28-43 | under a clock not behind the last timestamp, the issued id exceeds the previous one |
| Snowflake.RunStrictlyIncreasing | src/utils/snowflake.ts:27-45 | across consecutive calls under a non-decreasing clock, the ids are strictly increasing |
| Snowflake.ClockRegressionIssuesSmallerId | src/utils/snowflake.ts:28-39 | a clock one millisecond behind the last call yields an id smaller than the previous one |
| Schema.NewVoiceState | src/db/schema.ts:14-33 | a new row is keyed by its user and guild and every flag not supplied defaults to false |
| VoiceStateRepository.FindByUserAndGuild | src/repositories/voicestate.repository.ts:5-12 | returns the row stored under exactly that key, or none when there is none |
| VoiceStateRepository.FindByChannel | src/repositories/voicestate.repository.ts:14-19 | exactly the rows whose channel matches, unchanged |
| VoiceStateRepository.FindByGuild | src/repositories/voicestate.repository.ts:21-26 | exactly the rows whose guild matches, unchanged; on a well-keyed table, exactly the keys with that guild |
| VoiceStateRepository.CountIsSizeOfFindByChannel | src/repositories/voicestate.repository.ts:28-34 | the corrected count (the `cnt` of the query's single row, see Findings) equals the number of rows the channel query returns |
| VoiceStateRepository.CountByChannelAsWritten | src/repositories/voicestate.repository.ts:28-34 | the count as the source reads it, `cnt` of the rows array, is `undefined` whatever the table holds, never the channel's row count |
| VoiceStateRepository.DeleteByUserAndGuild | src/repositories/voicestate.repository.ts:36-41 | removes that key's row and leaves every other row as it was |
| VoiceStateRepository.Insert | src/repositories/voicestate.repository.ts:43-56 | fails with a duplicate-key error exactly when the key is taken; otherwise adds one row with schema defaults and keeps every other row |
| VoiceStateRepository.Update | src/repositories/voicestate.repository.ts:58-75 | with no row it returns none and changes nothing; otherwise only the supplied fields of that one row change and the post-update row is returned |
| VoiceStateRepository.FindByChannelAndSuppress | src/repositories/voicestate.repository.ts:77-88 | a user is returned exactly when one of their rows is in the channel with that `suppress` value |
| VoiceStateRepository.SuppressPartitionsChannel | src/repositories/voicestate.repository.ts:77-88 | the suppressed and unsuppressed rows of a channel are disjoint and together make up the channel |
| VoiceStateRepository.DeleteDoesNotRaiseCount | src/repositories/voicestate.repository.ts:36-41 | a delete never raises a channel's count |
| VoiceStateRepository.InsertCount | src/repositories/voicestate.repository.ts:43-56 | an insert adds one to its channel's count and leaves other channels' counts alone |
| VoiceStateService.JoinVoiceChannel | src/services/voicestate.ts:54-111 | over the corrected count (Findings): a channel type other than 2 or 13 is refused first; the join is refused as full exactly when a positive limit is reached once the user's prior row is gone; on success one row for the pair holds the new channel and session and every other row is untouched; the returned state differs from the stored row only in `suppress`; the token's room is `voice-<guild>-<channel>` and it may publish outside stages only; the admitted half (insert, returned state and token) is the helper `Admit`, shared with the as-written join |
| VoiceStateService.JoinPreservesWellKeyed | src/services/voicestate.ts:68-89 | every row stays stored under its own user and guild after a join |
| VoiceStateService.JoinRespectsCapacity | src/services/voicestate.ts:71-88 | over the corrected count (Findings): after a join under a positive limit the channel holds at most that many rows, whatever it held before; it gains at most one row and no other channel gains any |
| VoiceStateService.FullChannelRejectsNewcomer | src/services/voicestate.ts:71-76 | over the corrected count (Findings): a channel at or over a positive limit refuses a user not already in it as full; a refused join returns no new table, so a prior membership survives |
| VoiceStateService.JoinVoiceChannelAsWritten | src/services/voicestate.ts:54-88 | over the count the source reads: a channel type other than 2 or 13 is refused; every other join is admitted whatever the limit, exactly as the corrected join with no limit |
| VoiceStateService.FullChannelAdmitsNewcomerAsWritten | src/services/voicestate.ts:71-76 | as written, a channel at or over a positive limit admits a user not already in it, and ends one row past its count, so past the limit |
| VoiceStateService.SecondUserJoinsOneSeatChannelAsWritten | src/services/voicestate.ts:71-76 | as written, a second user joins a channel limited to one user and the channel holds two rows |
| VoiceStateService.LeaveVoiceChannel | src/services/voicestate.ts:113-121 | with no row it returns none and changes nothing; otherwise it removes and returns the row |
| VoiceStateService.LeaveIsIdempotent | src/services/voicestate.ts:113-121 | a second leave returns none and changes nothing |
| VoiceStateService.JoinThenLeave | src/services/voicestate.ts:54-121 | leaving after a join returns the join's session and restores every other row |
| VoiceStateService.UpdateVoiceState | src/services/voicestate.ts:123-138 | 404 exactly when the user has no row; otherwise only the supplied self flags change and server flags and `suppress` are untouched |
| VoiceStateService.ServerMuteDeafen | src/services/voicestate.ts:140-150 | 404 exactly when the user has no row; otherwise only `mute` / `deaf` change and the user's own flags are untouched |
| VoiceStateService.UpdatesKeepChannelCounts | src/services/voicestate.ts:123-150 | a partial update never changes any channel's count |
| VoiceStateService.GetChannelVoiceStates | src/services/voicestate.ts:152-154 | exactly the rows of that channel, each as stored |
| Dispatch.StripGuildChannel | src/utils/dispatch.ts:7 | a guild channel matches the subscribed pattern and removing the prefix gives back the guild id |
| Dispatch.GuildChannelOfStripped | src/gateway/index.ts:70-74 | every channel of the subscribed pattern is the guild channel of the id left after removing the prefix |
| Dispatch.ZAdd | src/utils/dispatch.ts:9 | the member is present with the given score and every other member is unchanged |
| Dispatch.ZRemRangeByScore | src/utils/dispatch.ts:10 | exactly the members scored above the bound remain, with their scores |
| Dispatch.PruneAndAddCommute | src/utils/dispatch.ts:8-11 | adding then pruning equals pruning then adding, and the entry just added always survives |
| Dispatch.DispatchGuild | src/utils/dispatch.ts:1-12 | publishes `{event, data}` once on the guild's channel; the guild's log holds the new entry scored `now`, keeps every entry younger than 60 s at its old score, and nothing else; other logs are untouched |
| Dispatch.PublishOnly | src/routes/stage.ts:6-11 | publishes once on the guild's channel and leaves every log as it was |
| GatewayAuth.Split | src/gateway/index.ts:23 | at least one part, no part contains a dot, and joining the parts with dots gives back the token |
| GatewayAuth.SplitJoin | src/gateway/index.ts:23 | splitting dot-free parts joined with dots gives back the parts |
| GatewayAuth.VerifyToken | src/gateway/index.ts:15-36 | the internal key is accepted; any other accepted token has exactly three parts, a third part equal to the HMAC of the first two, decodable claims and no expired non-zero `exp` |
| GatewayAuth.SignedTokenAccepted | src/gateway/index.ts:22-32 | a correctly signed three-part token is accepted exactly when its claims decode and have not expired (an `exp` equal to the current second is valid) |
| GatewayAuth.ForgedSignatureRejected | src/gateway/index.ts:25-29 | a token whose third part is not the HMAC of the first two is refused unless it is the internal key |
| GatewayAuth.DotlessTokenNeedsInternalKey | src/gateway/index.ts:17-24 | a token without a dot is accepted exactly when it is the internal key |
| GatewayAuth.HandshakeToken | src/gateway/index.ts:54-56 | the query token is used only when the auth token is absent |
| GatewayAuth.Admits | src/gateway/index.ts:53-67 | a socket is admitted exactly when its token, the auth token or failing that the query token, is a non-empty string that verifies |
| GatewayAuth.AuthTokenShadowsQuery | src/gateway/index.ts:54-60 | a present auth token decides alone; an empty or non-string one is refused whatever the query holds |
| GatewayAuth.InternalKeyAdmitted | src/gateway/index.ts:53-67 | the internal key is admitted through either the auth or the query token |
| Gateway.Connect | src/gateway/index.ts:53-67 | a socket is registered exactly when admitted, with its token and no rooms; sessions are untouched |
| Gateway.TakeGuilds | src/gateway/index.ts:116 | at most 200 guild ids, a prefix of the list, the whole list when it is short enough |
| Gateway.Identify | src/gateway/index.ts:84-130 | invalid payload: 4001 and nothing registered; a token claiming another user: 4002 and nothing registered; otherwise the session is stored under the socket, the socket joins each kept guild's room and `ready` echoes the session id; a first identify appends the socket to the session order, a repeated one keeps its place, a rejected one leaves the order alone; other sessions are untouched and the registry stays well formed |
| Gateway.InternalKeyIdentifiesAsAnyone | src/gateway/index.ts:95-99 | a socket holding the internal key identifies as any user |
| Gateway.ReidentifyKeepsEarlierRooms | src/gateway/index.ts:118-127 | rooms joined by a first identify remain after a second one |
| Gateway.HandleVoiceStateUpdate | src/gateway/index.ts:132-180 | ignored before identify; 4003 for a guild outside the session; a null channel leaves and announces only an existing membership with the session's id; otherwise a join whose state goes to the guild room and whose token and URL go to the socket alone; a refused join is contained, with no change and no message (the corrected handler of the Findings row) |
| Gateway.HandleVoiceStateUpdateAsWritten | src/gateway/index.ts:132-180 | the process ends exactly when an identified socket's join in one of its guilds is refused, with that refusal; on every other input the step is that of the corrected handler |
| Gateway.TextChannelJoinCrashesAsWritten | src/gateway/index.ts:158-167 | as written, an identified socket asking to join a text channel (type 0) of one of its guilds ends the process with "Not a voice channel" |
| Gateway.TextChannelJoinIsContained | src/gateway/index.ts:158-167 | the corrected handler drops the same request with the table and registry unchanged and no message |
| Gateway.VoiceUpdateTouchesOnlyOwnRow | src/gateway/index.ts:141-178 | a voice state update changes at most the session user's row in that guild |
| Gateway.JoinGrantReachesGuildRoom | src/gateway/index.ts:157-178 | a successful join announces to the guild room the same token the socket receives |
| Gateway.RemoveId | src/gateway/index.ts:186 | removes the socket from the key order, keeps every other key and keeps keys distinct |
| Gateway.FirstSessionOf | src/gateway/index.ts:190-192 | finds the first session of the user in insertion order, and none exists before it |
| Gateway.Sweep | src/gateway/index.ts:197-209 | only deletes, only the user's rows in guilds whose leave went through; each such membership is removed and announced, and a leave is announced only for a guild of the session whose leave went through and where a membership existed; one guild's failure does not stop the others |
| Gateway.Disconnect | src/gateway/index.ts:182-210 | the socket and its session leave the registry, other sessions stay; without a session nothing else happens; otherwise, if the first remaining session of the user in insertion order has another session id, no row changes and nothing is announced, and in every other case the full sweep runs |
| Gateway.FirstSessionSkippingId | src/gateway/index.ts:186-192 | deleting the disconnected socket from the map does not change which session of the user `find` returns first |
| Gateway.FirstRemainingSessionDecides | src/gateway/index.ts:186-209 | for any mix of remaining sessions, the user's first other session in registration order decides: another session id means no cleanup, the same one means the full sweep |
| Gateway.LastSessionCleansUp | src/gateway/index.ts:190-209 | when the user has no other session, the full sweep runs |
| Gateway.NewerSessionSkipsCleanup | src/gateway/index.ts:188-195 | when the user's other live sessions carry another session id, the disconnect changes no row and announces nothing |
| Gateway.SameSessionIdStillCleansUp | src/gateway/index.ts:190-209 | when no other live session of the user has a different session id, every membership in the session's guilds is removed and announced |
| Gateway.Relay | src/gateway/index.ts:70-79 | a malformed message is dropped; a parsed one goes once as `voice_event`, to the room of the very guild whose channel it came on |
| Gateway.DispatchReachesGuildRoom | src/gateway/index.ts:70-79 | what a dispatch publishes for a guild is relayed to that guild's room |
| StageService.FirstOnChannel | src/services/stage.ts:22-30 | the position of the first row on the channel, none before it, or none at all |
| StageService.GetStageInstance | src/services/stage.ts:22-30 | none exactly when no row is on the channel; otherwise a row on the channel, the only one when channels are unique |
| StageService.GetGuildStageInstances | src/services/stage.ts:32-37 | exactly the rows of that guild |
| StageService.CreateStageInstance | src/services/stage.ts:39-73 | 400 when the channel already has an instance; success exactly when the channel is free and the id unused; the new row takes privacy 2, no scheduled event and `discoverableDisabled` false by default; at most one instance per channel is kept |
| StageService.UpdateStageInstance | src/services/stage.ts:75-96 | with neither field supplied, the empty `SET` fails with 500; otherwise 404 exactly when the channel has no instance, and on success only the supplied topic and privacy change on that row; one instance per channel is kept |
| StageService.WithoutChannel | src/services/stage.ts:98-102 | exactly the rows on other channels remain, in order |
| StageService.DeleteStageInstance | src/services/stage.ts:98-109 | 404 exactly when the channel has no instance; otherwise that row is removed and returned |
| StageService.CreateThenGetThenDelete | src/services/stage.ts:22-109 | a created instance is read back and a delete restores the table as before the create |
| StageService.WithoutChannelOfAppended | src/services/stage.ts:98-102 | removing the channel of a row appended to a table without it gives back the table |
| StageService.RequestToSpeak | src/services/stage.ts:111-138 | 400 exactly when the user is not in that channel of that guild; otherwise one announcement with the request time, and no table changes |
| StageService.SetSuppress | src/services/stage.ts:140-172 | sets `suppress` on the matching row only, and changes nothing when no row matches |
| StageService.InviteToSpeak | src/services/stage.ts:140-155 | the matching row is unsuppressed, every other row is untouched, and no match changes nothing |
| StageService.MoveToAudience | src/services/stage.ts:157-172 | the matching row is suppressed, every other row is untouched, and no match changes nothing |
| StageService.GetSpeakers | src/services/stage.ts:174-186 | a user is returned exactly when one of their rows is in the channel and not suppressed |
| StageService.GetAudience | src/services/stage.ts:188-200 | a user is returned exactly when one of their rows is in the channel and suppressed |
| StageService.SpeakersAndAudienceCoverChannel | src/services/stage.ts:174-200 | speakers and audience together are the channel's members |
| StageService.InviteAndMoveTakeEffect | src/services/stage.ts:140-172 | an invited member is a speaker and a moved member is in the audience |
| StageService.MoveUndoesInvite | src/services/stage.ts:140-172 | inviting a suppressed member and moving them back restores the table |
| StageRoutes.PostStageInstance | src/routes/stage.ts:15-40 | a topic outside 1 to 120 characters or a privacy outside 1..2 is a 400; 201 exactly when the body is valid and the service creates, announcing the created instance without touching the log; otherwise nothing changes |
| StageRoutes.GetStageInstanceRoute | src/routes/stage.ts:43-50 | 404 exactly when the channel has no instance; otherwise 200 with an instance on that channel |
| StageRoutes.PatchStageInstance | src/routes/stage.ts:53-66 | invalid bounds are a 400; a body with neither field is a 500; a missing instance is a 404; nothing changes on any of these; 200 exactly for a valid non-empty body on a channel with an instance, storing the update and announcing it to the body's guild |
| StageRoutes.DeleteStageInstanceRoute | src/routes/stage.ts:69-76 | 204 exactly when the channel has an instance, which is removed and announced to the body's guild; otherwise a 404 with nothing changed |
| StageRoutes.RequestToSpeakRoute | src/routes/stage.ts:79-85 | 204 exactly when the user is in the channel; no table ever changes; a 204 publishes the request with its time and adds it to the guild's event log |
| StageRoutes.InviteToSpeakRoute | src/routes/stage.ts:88-100 | always 204; the row is unsuppressed if it matches and `suppress: false` is announced either way |
| StageRoutes.MoveToAudienceRoute | src/routes/stage.ts:103-115 | always 204; the row is suppressed if it matches and `suppress: true` is announced either way |
| StageRoutes.InviteAnnouncedWithoutRow | src/routes/stage.ts:88-100 | a user outside the channel is still announced as a speaker while the table stays as it was |
| StageRoutes.StageWritesSkipEventLog | src/routes/stage.ts:6-11 | stage create, update, delete and invite leave every event log as it was, while a request to speak writes the guild's log |
| StageRoutes.CreatesKeepOnePerChannel | src/routes/stage.ts:15-40 | a create through the route, however answered, keeps one instance per channel |
| SoundboardService.SoundLimit | src/services/soundboard.ts:182-190 | tiers 1 to 3 allow 12 more sounds per tier above a base of 12 (24, 36, 48); every other tier allows 8 |
| SoundboardService.SoundLimitMonotone | src/services/soundboard.ts:182-190 | a higher tier never lowers the cap and every tier allows at least 8 |
| SoundboardService.ClampVolume | src/services/soundboard.ts:70 | the volume lies in [0, 100], is kept when already there and otherwise goes to the nearer bound |
| SoundboardService.GetGuildSounds | src/services/soundboard.ts:21-26 | exactly the sounds of that guild |
| SoundboardService.GetSound | src/services/soundboard.ts:28-36 | the sound with that id in any guild, or none |
| SoundboardService.CreateSound | src/services/soundboard.ts:38-83 | a name over 32 characters is a 400, then a guild at its cap is a 400 naming the cap; on success the sound is available, by its creator, volume clamped (default 100), and the guild stays within its cap; other guilds are untouched |
| SoundboardService.UpdateSound | src/services/soundboard.ts:85-120 | a name over 32 characters is a 400; otherwise success exactly when the sound exists in that guild, else 404; each supplied field takes the supplied value (the volume clamped, an emoji possibly set to null), every other field keeps its value, and the creator, URL, availability and creation time never change; no guild's catalog changes size |
| SoundboardService.UpdateSoundIdempotent | src/services/soundboard.ts:85-120 | sending the same update again changes nothing |
| SoundboardService.DeleteSound | src/services/soundboard.ts:122-136 | success exactly when the sound exists in that guild, removing only it; else 404 |
| SoundboardService.OtherGuildsSoundsUntouchable | src/services/soundboard.ts:104-135 | a sound of one guild cannot be updated or deleted through another |
| SoundboardService.GetUserFavorites | src/services/soundboard.ts:138-149 | exactly the existing sounds the user has favorited |
| SoundboardService.InsertFavorite | src/db/schema.ts:77 | a pair already present is a duplicate-key error; otherwise the pair is added |
| SoundboardService.AddFavoriteAsWritten | src/services/soundboard.ts:151-169 | 404 for an unknown sound; a new pair is added |
| SoundboardService.ReAddingFavoriteFailsAsWritten | src/services/soundboard.ts:162-167 | re-adding a present pair propagates the duplicate-key error, a 500 |
| SoundboardService.AddFavorite | src/services/soundboard.ts:151-169 | 404 exactly for an unknown sound; otherwise the pair is in the set afterwards and nothing else changes |
| SoundboardService.AddFavoriteIdempotent | src/services/soundboard.ts:151-169 | adding twice equals adding once, and on new pairs the corrected and the as-written versions agree |
| SoundboardService.RemoveFavorite | src/services/soundboard.ts:171-180 | removes only that pair, present or not |
| SoundboardService.AddThenRemoveFavorite | src/services/soundboard.ts:151-180 | adding a new pair and removing it restores the set |
| SoundboardService.DeletedSoundLeavesFavoriteLists | src/services/soundboard.ts:138-149 | after a delete the sound appears in no user's favorites list |
| SoundboardRoutes.GetSoundRoute | src/routes/soundboard.ts:15-22 | 200 exactly when the sound exists and belongs to the path guild, else 404 |
| SoundboardRoutes.PostSoundRoute | src/routes/soundboard.ts:25-49 | an invalid name, URL or volume is a 400; 201 exactly when valid, under the cap of the tier (default 0) and the id is new; the sound is stored, returned and announced, and its volume is the requested one or 100; the stored sound is the one the service creates: the generated id, the guild, the name, URL and emoji of the body, the requesting user, available, and the database clock as `createdAt` |
| SoundboardRoutes.PatchSoundRoute | src/routes/soundboard.ts:52-70 | invalid bounds are a 400; an empty body is a 400 without calling the service; 200 exactly when the sound belongs to the guild; the stored and announced sound is the service's update of that sound by the patch, with a supplied name and volume as given; otherwise nothing changes |
| SoundboardRoutes.DeleteSoundRoute | src/routes/soundboard.ts:73-79 | 204 exactly when the sound belongs to the guild, removing it and announcing `{soundId, guildId}`; else a 404 with nothing changed |
| SoundboardRoutes.SendSoundboardSound | src/routes/soundboard.ts:82-105 | 404 with no announcement when the sound does not exist; otherwise the effect is announced to the body's guild |
| SoundboardRoutes.PutFavoriteRouteAsWritten | src/routes/soundboard.ts:114-118 | over the insert as written: 404 for an unknown sound; 204 exactly for a new pair, which is added; a pair already present is a 500 with nothing changed |
| SoundboardRoutes.PutFavoriteTwiceAsWritten | src/routes/soundboard.ts:114-118 | as written, a second put of the same favorite answers 500 while the favorite stays stored |
| SoundboardRoutes.PutFavoriteRoute | src/routes/soundboard.ts:114-118 | over the corrected insert of the Findings row: 204 exactly when the sound exists, with the pair added; else 404 |
| SoundboardRoutes.DeleteFavoriteRoute | src/routes/soundboard.ts:120-124 | always 204; the pair is absent afterwards and every other favorite, of this user or another, is kept; sounds and the bus are unchanged |
| SoundboardRoutes.CreateGetDelete | src/routes/soundboard.ts:15-79 | a created sound is read back through its guild, and is reported missing once deleted |
| SoundboardRoutes.CrossGuildSoundStillSent | src/routes/soundboard.ts:82-105 | a sound of another guild is still played and announced, though the guild's read reports it missing |
| SoundboardRoutes.PutFavoriteTwice | src/routes/soundboard.ts:114-118 | over the corrected insert of the Findings row, a second put of the same favorite answers 204 and changes nothing |
| VoiceRoutes.JoinRoute | src/routes/voice.ts:10-41 | 200 exactly when the service joins; the joined state with token and URL is both the body and the announcement; a refusal changes nothing |
| VoiceRoutes.LeaveRoute | src/routes/voice.ts:44-58 | always 204; the departure, with the removed row's session id, is announced only when a row existed |
| VoiceRoutes.PatchSelfRoute | src/routes/voice.ts:68-86 | an empty body is a 400 without calling the service; 200 exactly when the user has a row, announcing the updated row; a 404 announces nothing |
| VoiceRoutes.PatchServerRoute | src/routes/voice.ts:89-105 | an empty body is a 400 without calling the service; 200 exactly when the user has a row, announcing the updated row; a 404 announces nothing |
| VoiceRoutes.JoinThenLeaveRoute | src/routes/voice.ts:10-58 | a leave after a join announces the join's session id and restores every other row |
| VoiceRoutes.PatchAnnouncesStoredRow | src/routes/voice.ts:83-85 | the announced row is the stored row, still in the same channel |

## Left out

- Socket.IO, Fastify, the Redis adapter and pub/sub delivery: emissions and publications are appended to the step's output. Delivery, ordering and loss are not modelled.
- Concurrency and database isolation: the join transaction is one all-or-nothing step, and every handler call is one sequential step. A lost race between the stage-create check and its insert is not modelled.
- Cryptography and encoding are uninterpreted parameters: HMAC-SHA256, base64url, JSON parse/stringify, UTF-8, MD5, the random UUID, and `timingSafeEqual`'s constant-time property. A non-numeric `exp` claim is left to the claim decoder.
- The media token's signing, 4-hour lifetime, `jti` and metadata are not modelled. Only its room, participant and `canPublish` are.
- Wall-clock time: `Date.now()` and the database clock are parameters.
- The Redis read-through cache of `getGuildVoiceStates` and `invalidateGuildCache`: the model reads the table directly.
- A failure of the cache invalidation after a successful delete during the disconnect loop. A failing leave is modelled as failing before any change.
- Process and configuration wiring: server startup, the environment and config loaders, the Redis and database clients, migrations, and the API-key middleware. `parseInt` of `WORKER_ID` / `PROCESS_ID` is not modelled; the parsed value is an input.
- The decimal rendering of a snowflake id: the model keeps the number.
- The stage and soundboard repositories: the services query the tables directly, and that logic is modelled.
- The `voice_spatial_positions` table: nothing in the core uses it.
- The list routes (guild sounds, user favorites, guild voice states, speakers, audience) pass service results through unchanged. The services are modelled and these routes are not.
- Result order: speakers, audience and favorites lists are modelled as sets.
- Request bodies and parameters are modelled as already well-typed: every field has the type its zod schema names. A missing or wrongly typed field is not modelled, so the resulting 400 with nothing changed is not either. Examples are a stage delete with no body or a non-string `guildId`, the REST leave without `guildId`, and request-to-speak, invite and move without their fields. Only the bounds checks (lengths, ranges, URL syntax) are modelled.
- An identify payload that is not an object.
- A `voice_state_update` whose `channelId` is undefined rather than null.
- Non-integer numbers in fields the validator accepts as plain numbers (`channelType`, `userLimit`, `premiumTier`): the model uses integers.
- String lengths are counted in characters, not UTF-16 code units.
- An update with no fields is modelled only for the stage update, whose route lets such a body through: there it fails with 500. `VoiceStateRepository.Update`, `VoiceStateService.UpdateVoiceState`, `VoiceStateService.ServerMuteDeafen` and `SoundboardService.UpdateSound` treat an empty patch as a no-op. Their routes refuse an empty body before calling them, so the failing statement is never issued.
- `.returning()` on MySQL: the services call `.returning()` after their inserts, updates and deletes on MySQL tables (`src/services/stage.ts:66,89,102`, `src/services/soundboard.ts:76,113,131`). The MySQL query builders do not offer it, so as written these writes would fail. The model assumes they yield the affected rows, as the code expects. The repositories of the same code base write and then select again, which is what this assumption amounts to.
- The 500 "Failed to create" branches of create, which `.returning()` never reaches.
- VoiceStateRepository.CountIsSizeOfFindByChannel: states the corrected count. The count as the source reads it is `undefined` (Findings), and `VoiceStateRepository.CountByChannelAsWritten` models that read.
- VoiceStateService.JoinVoiceChannel: refuses a full channel, as the source intends. The join as written never does (Findings), which `VoiceStateService.JoinVoiceChannelAsWritten` models. The gateway and the REST route use the corrected join.
- VoiceStateService.JoinRespectsCapacity: holds for the corrected join only. As written the limit is never enforced (`VoiceStateService.FullChannelAdmitsNewcomerAsWritten`).
- VoiceStateService.FullChannelRejectsNewcomer: holds for the corrected join only. As written the newcomer is admitted (`VoiceStateService.FullChannelAdmitsNewcomerAsWritten`).
- Gateway.HandleVoiceStateUpdate: models the corrected handler, which contains a refused join. As written the refusal escapes the listener and ends the process (Findings, `Gateway.HandleVoiceStateUpdateAsWritten`). What happens to the other sockets and to the tables after the process ends is not modelled.
- Snowflake.Next: requires both partitions to be below 32. The source packs any configured `WORKER_ID` / `PROCESS_ID` without a range check. The Findings row shows the collision that values of 32 or more cause; negative configured values are not modelled.

## Findings

| source | as written | input that shows it | evidently intended | confidence | as-written member | corrected member |
|---|---|---|---|---|---|---|
| src/services/soundboard.ts:162-167 | the favorite insert's handler ignores only an error whose code is `"23505"`, PostgreSQL's unique-violation code; the tables are MySQL tables, whose driver reports a duplicate primary key as `ER_DUP_ENTRY` | `PUT /users/u/soundboard-sounds/s` twice for an existing sound `s`: the second insert hits the `(userId, soundId)` primary key and its error propagates as a 500 | re-adding a favorite is ignored and answers 204 | not executed; high, given the MySQL driver's error code | SoundboardService.AddFavoriteAsWritten | SoundboardService.AddFavorite |
| src/utils/snowflake.ts:12-22 | a configured `WORKER_ID` / `PROCESS_ID` is used without a range check and or-ed into a five-bit field, so a value of 32 or more spills into the field above it | a single process with `WORKER_ID=32`, `PROCESS_ID=0`: the first ids of relative milliseconds 2 and 3 are both `0xC00000`; also, `WORKER_ID=0` elsewhere issues at `t + 1` the id worker 32 issues at an even `t` | configured values are held to 0..31, so different processes never issue the same id | not executed; medium, since the range may be left to the operator | Snowflake.PackAsWritten | Snowflake.CheckedPartition |
| src/repositories/voicestate.repository.ts:30-33 | `countByChannel` destructures the first element of what the MySQL driver's `execute` resolves to, which is the rows array, and reads `.cnt` from it; an array has no `cnt`, so the count is `undefined` and `count >= userLimit` in the join is always false | `userLimit` 1, channel `c` holding another user's row; user `u` joins `c` and is admitted, leaving two rows in `c` | the count is the `cnt` of the single row, and a join into a full channel is refused with 400 "Voice channel is full" | not executed; high, given the driver's result shape | VoiceStateService.JoinVoiceChannelAsWritten | VoiceStateService.JoinVoiceChannel |
| src/gateway/index.ts:158-167 | the async `voice_state_update` listener awaits the join with no `catch`, and the process installs no handler for unhandled rejections, so a refused join ends the process under Node's default | an identified socket sends `{guildId, channelId: "c", channelType: 0}` naming one of its guilds: the join throws 400 "Not a voice channel" and the gateway exits for every client | a refused join is dropped for that request alone and the gateway keeps serving | not executed; medium, since a Node runtime older than version 15 only warns | Gateway.HandleVoiceStateUpdateAsWritten | Gateway.HandleVoiceStateUpdate |
