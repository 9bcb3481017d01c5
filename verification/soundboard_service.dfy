/** The soundboard catalog: per-guild sounds with a name-length limit, a cap
    on the number of sounds that grows with the guild's premium tier, a
    volume clamped to [0, 100], guild-scoped update and delete, and each
    user's favorites as a set of (user, sound) pairs. */
module SoundboardService {
  import opened Common
  import opened Schema

  /** `soundboard_sounds` by id. */
  type Sounds = map<string, SoundboardSound>

  /** `user_soundboard_favorites`: its whole row is the primary key. */
  type Favorites = set<Favorite>

  const MaxSoundNameLength: nat := 32
  const MinVolume: int := 0
  const MaxVolume: int := 100

  /** PostgreSQL's SQLSTATE for a unique violation, the code the favorite
      insert's error handler tests for. */
  const PostgresUniqueViolation: string := "23505"

  const NameTooLong: Failure := ApiError(400, "Sound name must be 32 characters or less")
  const SoundNotFound: Failure := ApiError(404, "Sound not found")

  /** The decimal digits of a natural number. */
  function Decimal(n: nat): string
    decreases n
  {
    if n < 10 then ["0123456789"[n]] else Decimal(n / 10) + ["0123456789"[n % 10]]
  }

  /** The error of a guild that has reached its cap. */
  function LimitReached(limit: nat): Failure {
    ApiError(400, "This server has reached the maximum of " + Decimal(limit) + " sounds")
  }

  /** `getSoundLimit`: tiers 0 to 3 allow 8, 24, 36 and 48 sounds; any other
      value falls back to 8. */
  function SoundLimit(premiumTier: int): (r: nat)
    // each paid tier adds 12 to a base of 12; every other tier gets 8
    ensures 1 <= premiumTier <= 3 ==> r == 12 * (premiumTier + 1)
    ensures !(1 <= premiumTier <= 3) ==> r == 8
  {
    match premiumTier
    case 0 => 8
    case 1 => 24
    case 2 => 36
    case 3 => 48
    case _ => 8
  }

  /** A higher tier (within 0 to 3) never lowers the cap, and every tier
      allows at least the base 8. */
  lemma SoundLimitMonotone(lower: int, higher: int)
    requires 0 <= lower <= higher <= 3
    ensures 8 <= SoundLimit(lower) <= SoundLimit(higher)
  {
  }

  /** `Math.min(100, Math.max(0, volume))`. */
  function ClampVolume(volume: int): (r: int)
    ensures MinVolume <= r <= MaxVolume
    ensures MinVolume <= volume <= MaxVolume ==> r == volume
    ensures volume < MinVolume ==> r == MinVolume
    ensures volume > MaxVolume ==> r == MaxVolume
  {
    Min(MaxVolume, Max(MinVolume, volume))
  }

  /** The ids of a guild's sounds. */
  function GuildSoundIds(sounds: Sounds, guildId: GuildId): set<string> {
    set id | id in sounds && sounds[id].guildId == guildId
  }

  /** Every sound is stored under its own id, as a row under its primary
      key. */
  ghost predicate KeyedById(sounds: Sounds) {
    forall id :: id in sounds ==> sounds[id].id == id
  }

  /** `getGuildSounds`: the guild's sounds and no other. */
  function GetGuildSounds(sounds: Sounds, guildId: GuildId): (r: Sounds)
    ensures r.Keys == GuildSoundIds(sounds, guildId)
    ensures forall id :: id in r ==> r[id] == sounds[id] && r[id].guildId == guildId
  {
    map id | id in GuildSoundIds(sounds, guildId) :: sounds[id]
  }

  /** `getSound`: by id alone, whatever the guild. */
  function GetSound(sounds: Sounds, soundId: string): (r: Option<SoundboardSound>)
    ensures r.Some? <==> soundId in sounds
    ensures r.Some? ==> r.value == sounds[soundId]
  {
    if soundId in sounds then Some(sounds[soundId]) else None
  }

  /** The fields a create supplies. */
  datatype NewSound = NewSound(name: string, soundUrl: string, volume: Option<int>,
                               emojiId: Option<string>, emojiName: Option<string>)

  /** A write and the sound it returns. */
  datatype SoundWrite = SoundWrite(sounds: Sounds, sound: SoundboardSound)

  /** `createSound` with the generated `id` and the database clock `now`. */
  function CreateSound(sounds: Sounds, guildId: GuildId, userId: UserId, premiumTier: int, data: NewSound,
                       id: string, now: int): (r: Result<SoundWrite>)
    ensures |data.name| > MaxSoundNameLength ==> r == Err(NameTooLong)
    ensures |data.name| <= MaxSoundNameLength && |GuildSoundIds(sounds, guildId)| >= SoundLimit(premiumTier) ==>
      r == Err(LimitReached(SoundLimit(premiumTier)))
    ensures r.Ok? <==>
      |data.name| <= MaxSoundNameLength && |GuildSoundIds(sounds, guildId)| < SoundLimit(premiumTier) && id !in sounds
    ensures r.Ok? ==>
      && r.value.sounds == sounds[id := r.value.sound]
      && r.value.sound == SoundboardSound(id, guildId, data.name, ClampVolume(data.volume.GetOr(DefaultVolume)),
                                          data.emojiId, data.emojiName, Some(userId), true, data.soundUrl, now)
    // the cap holds after every successful create
    ensures r.Ok? ==>
      |GuildSoundIds(r.value.sounds, guildId)| == |GuildSoundIds(sounds, guildId)| + 1 <= SoundLimit(premiumTier)
    ensures r.Ok? ==> forall g :: g != guildId ==> GuildSoundIds(r.value.sounds, g) == GuildSoundIds(sounds, g)
    ensures r.Ok? && KeyedById(sounds) ==> KeyedById(r.value.sounds)
  {
    if |data.name| > MaxSoundNameLength then Err(NameTooLong)
    else
      var limit := SoundLimit(premiumTier);
      if |GuildSoundIds(sounds, guildId)| >= limit then Err(LimitReached(limit))
      else if id in sounds then Err(StoreError(DuplicateEntry))
      else
        var sound := SoundboardSound(id, guildId, data.name, ClampVolume(data.volume.GetOr(DefaultVolume)),
                                     data.emojiId, data.emojiName, Some(userId), true, data.soundUrl, now);
        var sounds' := sounds[id := sound];
        assert GuildSoundIds(sounds', guildId) == GuildSoundIds(sounds, guildId) + {id};
        Ok(SoundWrite(sounds', sound))
  }

  /** The fields an update may set: `Some(None)` sets an emoji column to
      null. */
  datatype SoundPatch = SoundPatch(name: Option<string>, volume: Option<int>,
                                   emojiId: Option<Option<string>>, emojiName: Option<Option<string>>)
  {
    predicate IsEmpty() {
      name.None? && volume.None? && emojiId.None? && emojiName.None?
    }
  }

  /** The sound is there and belongs to the guild. */
  predicate OwnedBy(sounds: Sounds, guildId: GuildId, soundId: string) {
    soundId in sounds && sounds[soundId].guildId == guildId
  }

  /** The supplied fields of a sound replaced, the volume clamped. */
  function PatchSound(s: SoundboardSound, patch: SoundPatch): SoundboardSound {
    s.(name := patch.name.GetOr(s.name),
       volume := if patch.volume.Some? then ClampVolume(patch.volume.value) else s.volume,
       emojiId := patch.emojiId.GetOr(s.emojiId),
       emojiName := patch.emojiName.GetOr(s.emojiName))
  }

  /** `updateSound`: the name limit first, then only a sound of that guild
      is changed; 404 otherwise. */
  function UpdateSound(sounds: Sounds, guildId: GuildId, soundId: string, patch: SoundPatch): (r: Result<SoundWrite>)
    ensures patch.name.Some? && |patch.name.value| > MaxSoundNameLength ==> r == Err(NameTooLong)
    ensures (patch.name.None? || |patch.name.value| <= MaxSoundNameLength) ==>
      (r.Ok? <==> OwnedBy(sounds, guildId, soundId)) && (r.Err? ==> r.error == SoundNotFound)
    ensures r.Ok? ==>
      && r.value.sounds == sounds[soundId := r.value.sound]
      && r.value.sound.id == sounds[soundId].id && r.value.sound.guildId == guildId
      && r.value.sound.name == (if patch.name.Some? then patch.name.value else sounds[soundId].name)
      && (patch.volume.Some? ==> r.value.sound.volume == ClampVolume(patch.volume.value))
      && (patch.volume.None? ==> r.value.sound.volume == sounds[soundId].volume)
      && r.value.sound.emojiId == (if patch.emojiId.Some? then patch.emojiId.value else sounds[soundId].emojiId)
      && r.value.sound.emojiName == (if patch.emojiName.Some? then patch.emojiName.value else sounds[soundId].emojiName)
      // the columns an update cannot set
      && r.value.sound.userId == sounds[soundId].userId
      && r.value.sound.available == sounds[soundId].available
      && r.value.sound.createdAt == sounds[soundId].createdAt
      && r.value.sound.soundUrl == sounds[soundId].soundUrl
    // a supplied volume lands in range
    ensures r.Ok? && patch.volume.Some? ==> MinVolume <= r.value.sound.volume <= MaxVolume
    // the guild's catalog keeps its size
    ensures r.Ok? ==> forall g :: GuildSoundIds(r.value.sounds, g) == GuildSoundIds(sounds, g)
    ensures r.Ok? && KeyedById(sounds) ==> KeyedById(r.value.sounds)
  {
    if patch.name.Some? && |patch.name.value| > MaxSoundNameLength then Err(NameTooLong)
    else if !OwnedBy(sounds, guildId, soundId) then Err(SoundNotFound)
    else
      var sound := PatchSound(sounds[soundId], patch);
      var sounds' := sounds[soundId := sound];
      assert forall g :: GuildSoundIds(sounds', g) == GuildSoundIds(sounds, g);
      Ok(SoundWrite(sounds', sound))
  }

  /** Sending the same update again changes nothing: every supplied field
      already holds its value, and the clamp of a clamped volume is itself. */
  lemma UpdateSoundIdempotent(sounds: Sounds, guildId: GuildId, soundId: string, patch: SoundPatch)
    requires UpdateSound(sounds, guildId, soundId, patch).Ok?
    ensures var once := UpdateSound(sounds, guildId, soundId, patch).value;
            UpdateSound(once.sounds, guildId, soundId, patch) == Ok(once)
  {
    var once := UpdateSound(sounds, guildId, soundId, patch).value;
    if patch.volume.Some? {
      assert ClampVolume(ClampVolume(patch.volume.value)) == ClampVolume(patch.volume.value);
    }
    assert PatchSound(once.sound, patch) == once.sound;
    assert once.sounds[soundId := once.sound] == once.sounds;
  }

  /** `deleteSound`: removes a sound of that guild; 404 otherwise. The
      favorites that name it are left in place. */
  function DeleteSound(sounds: Sounds, guildId: GuildId, soundId: string): (r: Result<Sounds>)
    ensures r.Ok? <==> OwnedBy(sounds, guildId, soundId)
    ensures r.Err? ==> r.error == SoundNotFound
    ensures r.Ok? ==> r.value == sounds - {soundId}
  {
    if OwnedBy(sounds, guildId, soundId) then Ok(sounds - {soundId}) else Err(SoundNotFound)
  }

  /** A sound of one guild cannot be changed or removed through another. */
  lemma OtherGuildsSoundsUntouchable(sounds: Sounds, guildId: GuildId, soundId: string, patch: SoundPatch)
    requires soundId in sounds && sounds[soundId].guildId != guildId
    ensures UpdateSound(sounds, guildId, soundId, patch).Err?
    ensures DeleteSound(sounds, guildId, soundId) == Err(SoundNotFound)
  {
  }

  // ---------------------------------------------------------------------
  // Favorites
  // ---------------------------------------------------------------------

  /** `getUserFavorites`: the user's favorite sounds that still exist (an
      inner join drops favorites of deleted sounds). */
  function GetUserFavorites(sounds: Sounds, favorites: Favorites, userId: UserId): (r: set<SoundboardSound>)
    ensures forall s :: s in r <==> exists f :: f in favorites && f.userId == userId && f.soundId in sounds && sounds[f.soundId] == s
  {
    set f | f in favorites && f.userId == userId && f.soundId in sounds :: sounds[f.soundId]
  }

  /** The favorite insert: a pair already present is a primary-key
      violation, reported with the MySQL driver's code. */
  function InsertFavorite(favorites: Favorites, userId: UserId, soundId: string): (r: Result<Favorites>)
    ensures r.Err? <==> Favorite(userId, soundId) in favorites
    ensures r.Err? ==> r.error == StoreError(DuplicateEntry)
    ensures r.Ok? ==> r.value == favorites + {Favorite(userId, soundId)}
  {
    if Favorite(userId, soundId) in favorites then Err(StoreError(DuplicateEntry))
    else Ok(favorites + {Favorite(userId, soundId)})
  }

  /** `addFavorite` as written: it swallows only an error whose code is
      PostgreSQL's unique violation, which the MySQL driver never reports. */
  function AddFavoriteAsWritten(sounds: Sounds, favorites: Favorites, userId: UserId, soundId: string): (r: Result<Favorites>)
    ensures soundId !in sounds ==> r == Err(SoundNotFound)
    ensures soundId in sounds && Favorite(userId, soundId) !in favorites ==>
      r == Ok(favorites + {Favorite(userId, soundId)})
  {
    if soundId !in sounds then Err(SoundNotFound)
    else
      match InsertFavorite(favorites, userId, soundId)
      case Ok(favorites') => Ok(favorites')
      case Err(e) => if e == StoreError(PostgresUniqueViolation) then Ok(favorites) else Err(e)
  }

  /** Favoriting a sound already favorited fails as written: the insert's
      duplicate-key error is not the one the handler looks for, so it propagates and
      the request answers 500. */
  lemma ReAddingFavoriteFailsAsWritten(sounds: Sounds, favorites: Favorites, userId: UserId, soundId: string)
    requires soundId in sounds && Favorite(userId, soundId) in favorites
    ensures AddFavoriteAsWritten(sounds, favorites, userId, soundId) == Err(StoreError(DuplicateEntry))
    ensures AddFavoriteAsWritten(sounds, favorites, userId, soundId).error.Status() == 500
  {
  }

  /** `addFavorite` as intended: 404 for an unknown sound; a pair already
      present is ignored. */
  function AddFavorite(sounds: Sounds, favorites: Favorites, userId: UserId, soundId: string): (r: Result<Favorites>)
    ensures r.Err? <==> soundId !in sounds
    ensures r.Err? ==> r.error == SoundNotFound
    ensures r.Ok? ==> r.value == favorites + {Favorite(userId, soundId)}
  {
    if soundId !in sounds then Err(SoundNotFound)
    else
      match InsertFavorite(favorites, userId, soundId)
      case Ok(favorites') => Ok(favorites')
      case Err(e) => if e == StoreError(DuplicateEntry) then Ok(favorites) else Err(e)
  }

  /** Adding a favorite is idempotent, and the two versions agree on every
      pair not yet present. */
  lemma AddFavoriteIdempotent(sounds: Sounds, favorites: Favorites, userId: UserId, soundId: string)
    requires soundId in sounds
    ensures var once := AddFavorite(sounds, favorites, userId, soundId);
            once.Ok? && AddFavorite(sounds, once.value, userId, soundId) == once
    ensures Favorite(userId, soundId) !in favorites ==>
      AddFavorite(sounds, favorites, userId, soundId) == AddFavoriteAsWritten(sounds, favorites, userId, soundId)
  {
  }

  /** `removeFavorite`: deletes only that pair, present or not. */
  function RemoveFavorite(favorites: Favorites, userId: UserId, soundId: string): (r: Favorites)
    ensures Favorite(userId, soundId) !in r
    ensures forall f :: f != Favorite(userId, soundId) ==> (f in r <==> f in favorites)
  {
    favorites - {Favorite(userId, soundId)}
  }

  /** Adding a new favorite and removing it restores the set. */
  lemma AddThenRemoveFavorite(sounds: Sounds, favorites: Favorites, userId: UserId, soundId: string)
    requires soundId in sounds && Favorite(userId, soundId) !in favorites
    ensures RemoveFavorite(AddFavorite(sounds, favorites, userId, soundId).value, userId, soundId) == favorites
  {
  }

  /** A deleted sound disappears from every user's favorites list, though
      the favorite rows stay. */
  lemma DeletedSoundLeavesFavoriteLists(sounds: Sounds, favorites: Favorites, guildId: GuildId,
                                        soundId: string, userId: UserId)
    requires KeyedById(sounds) && DeleteSound(sounds, guildId, soundId).Ok?
    ensures forall s :: s in GetUserFavorites(DeleteSound(sounds, guildId, soundId).value, favorites, userId) ==>
              s in GetUserFavorites(sounds, favorites, userId) && s.id != soundId
  {
  }
}
