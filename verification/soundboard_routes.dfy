/** The HTTP routes of the soundboard: body validation, the guild check of the
    single-sound read, the empty-body guard of the update, and the event each
    successful write announces through the shared guild dispatch. A rejected
    request answers the error's status and leaves the tables and the bus as
    they were. */
module SoundboardRoutes {
  import opened Common
  import opened Schema
  import opened Dispatch
  import opened SoundboardService

  /** What the routes read and write. */
  datatype State = State(sounds: Sounds, favorites: Favorites, bus: Bus)


  /** `z.number().int().min(0).max(100).optional()`. */
  predicate ValidVolume(volume: Option<int>) {
    volume.None? || MinVolume <= volume.value <= MaxVolume
  }

  /** `z.string().min(1).max(32)`. */
  predicate ValidName(name: string) {
    1 <= |name| <= MaxSoundNameLength
  }

  /** `GET /guilds/:guildId/soundboard-sounds/:soundId`: a sound of another
      guild is reported missing. */
  function GetSoundRoute(st: State, guildId: GuildId, soundId: string): (r: Reply<SoundboardSound, State>)
    ensures r.state == st
    ensures r.status == 200 <==> OwnedBy(st.sounds, guildId, soundId)
    ensures r.status != 200 ==> r.status == 404 && r.body.None?
    ensures r.status == 200 ==> r.body == Some(st.sounds[soundId])
  {
    match GetSound(st.sounds, soundId)
    case None => Reply(404, None, st)
    case Some(sound) => if sound.guildId != guildId then Reply(404, None, st) else Reply(200, Some(sound), st)
  }

  datatype CreateBody = CreateBody(
    userId: UserId,
    premiumTier: Option<int>,
    name: string,
    soundUrl: string,
    volume: Option<int>,
    emojiId: Option<string>,
    emojiName: Option<string>)

  /** The create body's schema; `isUrl` is the URL syntax test. */
  predicate ValidCreate(body: CreateBody, isUrl: string -> bool) {
    ValidName(body.name) && isUrl(body.soundUrl) && ValidVolume(body.volume)
  }

  /** `POST /guilds/:guildId/soundboard-sounds` with the generated id, the
      database clock `createdAt` and the dispatch clock `now`. The premium
      tier defaults to 0. */
  function PostSoundRoute(st: State, guildId: GuildId, body: CreateBody, isUrl: string -> bool,
                          id: string, createdAt: int, now: int): (r: Reply<SoundboardSound, State>)
    ensures !ValidCreate(body, isUrl) ==> r == Reject(ValidationError, st)
    ensures r.status == 201 <==>
      && ValidCreate(body, isUrl)
      && |GuildSoundIds(st.sounds, guildId)| < SoundLimit(body.premiumTier.GetOr(0))
      && id !in st.sounds
    // what is stored, returned and announced
    ensures r.status == 201 ==>
      && r.body.Some?
      && r.state.sounds == st.sounds[id := r.body.value]
      && r.state.favorites == st.favorites
      && r.state.bus == DispatchGuild(st.bus, guildId, SoundCreate, Sound(r.body.value), now)
      && r.body.value.guildId == guildId && r.body.value.name == body.name
      && r.body.value.userId == Some(body.userId) && r.body.value.available
    // the route's own bounds make the service's clamp and name check inert
    ensures r.status == 201 ==> r.body.value.volume == body.volume.GetOr(DefaultVolume)
    // the stored sound is the service's, field by field the body's
    ensures r.status == 201 ==>
      r.body == Some(CreateSound(st.sounds, guildId, body.userId, body.premiumTier.GetOr(0),
                                 NewSound(body.name, body.soundUrl, body.volume, body.emojiId, body.emojiName),
                                 id, createdAt).value.sound)
    ensures r.status == 201 ==>
      r.body == Some(SoundboardSound(id, guildId, body.name, body.volume.GetOr(DefaultVolume),
                                     body.emojiId, body.emojiName, Some(body.userId), true, body.soundUrl, createdAt))
    ensures r.status != 201 ==> r.state == st && r.status >= 400
  {
    if !ValidCreate(body, isUrl) then Reject(ValidationError, st)
    else
      var data := NewSound(body.name, body.soundUrl, body.volume, body.emojiId, body.emojiName);
      match CreateSound(st.sounds, guildId, body.userId, body.premiumTier.GetOr(0), data, id, createdAt)
      case Err(e) => Reject(e, st)
      case Ok(created) =>
        Reply(201, Some(created.sound),
              State(created.sounds, st.favorites, DispatchGuild(st.bus, guildId, SoundCreate, Sound(created.sound), now)))
  }

  /** The update body's schema. */
  predicate ValidPatch(patch: SoundPatch) {
    (patch.name.None? || ValidName(patch.name.value)) && ValidVolume(patch.volume)
  }

  /** `PATCH /guilds/:guildId/soundboard-sounds/:soundId`: a body with no
      field is refused before the service is called. */
  function PatchSoundRoute(st: State, guildId: GuildId, soundId: string, patch: SoundPatch, now: int): (r: Reply<SoundboardSound, State>)
    ensures !ValidPatch(patch) ==> r == Reject(ValidationError, st)
    ensures ValidPatch(patch) && patch.IsEmpty() ==> r == Reply(400, None, st)
    ensures r.status == 200 <==> ValidPatch(patch) && !patch.IsEmpty() && OwnedBy(st.sounds, guildId, soundId)
    ensures r.status == 200 ==>
      && r.body.Some?
      && r.state.sounds == st.sounds[soundId := r.body.value]
      && r.state.favorites == st.favorites
      && r.state.bus == DispatchGuild(st.bus, guildId, SoundUpdate, Sound(r.body.value), now)
    // the stored and announced sound is the service's update of the patch
    ensures r.status == 200 ==> r.body == Some(UpdateSound(st.sounds, guildId, soundId, patch).value.sound)
    ensures r.status == 200 && patch.name.Some? ==> r.body.value.name == patch.name.value
    ensures r.status == 200 && patch.volume.Some? ==> r.body.value.volume == patch.volume.value
    ensures r.status != 200 ==> r.state == st && r.status >= 400
  {
    if !ValidPatch(patch) then Reject(ValidationError, st)
    else if patch.IsEmpty() then Reply(400, None, st)
    else
      match UpdateSound(st.sounds, guildId, soundId, patch)
      case Err(e) => Reject(e, st)
      case Ok(updated) =>
        Reply(200, Some(updated.sound),
              State(updated.sounds, st.favorites, DispatchGuild(st.bus, guildId, SoundUpdate, Sound(updated.sound), now)))
  }

  /** `DELETE /guilds/:guildId/soundboard-sounds/:soundId`. */
  function DeleteSoundRoute(st: State, guildId: GuildId, soundId: string, now: int): (r: Reply<SoundboardSound, State>)
    ensures r.status == 204 <==> OwnedBy(st.sounds, guildId, soundId)
    ensures r.status == 204 ==>
      r.state == State(st.sounds - {soundId}, st.favorites,
                       DispatchGuild(st.bus, guildId, SoundDelete, SoundDeleted(soundId, guildId), now))
    ensures r.status != 204 ==> r == Reject(SoundNotFound, st)
  {
    match DeleteSound(st.sounds, guildId, soundId)
    case Err(e) => Reject(e, st)
    case Ok(sounds') =>
      Reply(204, None, State(sounds', st.favorites,
                             DispatchGuild(st.bus, guildId, SoundDelete, SoundDeleted(soundId, guildId), now)))
  }

  /** `POST /channels/:channelId/send-soundboard-sound`: announced to the
      guild the body names once the sound exists in any guild. */
  function SendSoundboardSound(st: State, channelId: ChannelId, soundId: string, userId: UserId,
                               guildId: GuildId, now: int): (r: Reply<SoundboardSound, State>)
    ensures r.status == 204 <==> soundId in st.sounds
    ensures r.status != 204 ==> r == Reply(404, None, st)
    ensures r.status == 204 ==>
      r.state == st.(bus := DispatchGuild(st.bus, guildId, ChannelEffectSend,
                                          ChannelEffect(channelId, guildId, userId, soundId), now))
  {
    if GetSound(st.sounds, soundId).None? then Reply(404, None, st)
    else Reply(204, None, st.(bus := DispatchGuild(st.bus, guildId, ChannelEffectSend,
                                                   ChannelEffect(channelId, guildId, userId, soundId), now)))
  }

  /** `PUT /users/:userId/soundboard-sounds/:soundId` over the favorite
      insert as written: a favorite already present makes the insert's
      duplicate-key error propagate, and the request answers 500. */
  function PutFavoriteRouteAsWritten(st: State, userId: UserId, soundId: string): (r: Reply<SoundboardSound, State>)
    ensures r.status == 204 <==> soundId in st.sounds && Favorite(userId, soundId) !in st.favorites
    ensures soundId !in st.sounds ==> r == Reject(SoundNotFound, st)
    ensures soundId in st.sounds && Favorite(userId, soundId) in st.favorites ==>
      r == Reject(StoreError(DuplicateEntry), st) && r.status == 500
    ensures r.status == 204 ==> r.state == st.(favorites := st.favorites + {Favorite(userId, soundId)})
  {
    match AddFavoriteAsWritten(st.sounds, st.favorites, userId, soundId)
    case Err(e) => Reject(e, st)
    case Ok(favorites') => Reply(204, None, st.(favorites := favorites'))
  }

  /** As written, the second put of the same favorite answers 500, though
      the favorite stays stored. */
  lemma PutFavoriteTwiceAsWritten(st: State, userId: UserId, soundId: string)
    requires soundId in st.sounds && Favorite(userId, soundId) !in st.favorites
    ensures var once := PutFavoriteRouteAsWritten(st, userId, soundId);
            && once.status == 204
            && PutFavoriteRouteAsWritten(once.state, userId, soundId) == Reply(500, None, once.state)
            && Favorite(userId, soundId) in once.state.favorites
  {
    ReAddingFavoriteFailsAsWritten(st.sounds, st.favorites + {Favorite(userId, soundId)}, userId, soundId);
  }

  /** The same route over the corrected favorite insert (the one the rest of
      the model uses), where a favorite already present is ignored. */
  function PutFavoriteRoute(st: State, userId: UserId, soundId: string): (r: Reply<SoundboardSound, State>)
    ensures r.status == 204 <==> soundId in st.sounds
    ensures r.status != 204 ==> r == Reject(SoundNotFound, st)
    ensures r.status == 204 ==> r.state == st.(favorites := st.favorites + {Favorite(userId, soundId)})
  {
    match AddFavorite(st.sounds, st.favorites, userId, soundId)
    case Err(e) => Reject(e, st)
    case Ok(favorites') => Reply(204, None, st.(favorites := favorites'))
  }

  /** `DELETE /users/:userId/soundboard-sounds/:soundId`: always 204. */
  function DeleteFavoriteRoute(st: State, userId: UserId, soundId: string): (r: Reply<SoundboardSound, State>)
    ensures r.status == 204
    ensures Favorite(userId, soundId) !in r.state.favorites
    // every other favorite, of this user or another, is kept
    ensures forall f :: f != Favorite(userId, soundId) ==> (f in r.state.favorites <==> f in st.favorites)
    ensures r.state.favorites == RemoveFavorite(st.favorites, userId, soundId)
    ensures r.state.sounds == st.sounds && r.state.bus == st.bus
  {
    Reply(204, None, st.(favorites := RemoveFavorite(st.favorites, userId, soundId)))
  }

  /** A created sound can be read back through its guild, and after its
      deletion it is reported missing. */
  lemma CreateGetDelete(st: State, guildId: GuildId, body: CreateBody, isUrl: string -> bool,
                        id: string, createdAt: int, now: int, later: int)
    requires PostSoundRoute(st, guildId, body, isUrl, id, createdAt, now).status == 201
    ensures var created := PostSoundRoute(st, guildId, body, isUrl, id, createdAt, now);
            && GetSoundRoute(created.state, guildId, id) == Reply(200, created.body, created.state)
            && DeleteSoundRoute(created.state, guildId, id, later).status == 204
            && GetSoundRoute(DeleteSoundRoute(created.state, guildId, id, later).state, guildId, id).status == 404
  {
  }

  /** The effect route makes no guild check: a sound of one guild is played
      and announced in another. */
  lemma CrossGuildSoundStillSent(st: State, channelId: ChannelId, soundId: string, userId: UserId,
                                 guildId: GuildId, now: int)
    requires soundId in st.sounds && st.sounds[soundId].guildId != guildId
    ensures var r := SendSoundboardSound(st, channelId, soundId, userId, guildId, now);
            && r.status == 204
            && PublishedOne(st.bus, r.state.bus, guildId, ChannelEffectSend, ChannelEffect(channelId, guildId, userId, soundId))
            && GetSoundRoute(st, guildId, soundId).status == 404
  {
  }

  /** Over the corrected insert, putting a favorite twice answers 204 both
      times and leaves the set as after the first. */
  lemma PutFavoriteTwice(st: State, userId: UserId, soundId: string)
    requires soundId in st.sounds
    ensures var once := PutFavoriteRoute(st, userId, soundId);
            && once.status == 204
            && PutFavoriteRoute(once.state, userId, soundId) == once
  {
  }
}
