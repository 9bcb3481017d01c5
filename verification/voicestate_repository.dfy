/** The `voice_states` table and the queries the services run on it. The table
    is a map from its primary key `(userId, guildId)` to the row, so there is
    at most one row per user per guild by construction. */
module VoiceStateRepository {
  import opened Common
  import opened Schema

  type Table = map<VoiceKey, VoiceState>

  /** Every row is stored under its own key. */
  ghost predicate WellKeyed(t: Table) {
    forall k :: k in t ==> KeyOf(t[k]) == k
  }

  /** `findByUserAndGuild`: the row under exactly that key, or null. */
  function FindByUserAndGuild(t: Table, userId: UserId, guildId: GuildId): (r: Option<VoiceState>)
    ensures r.Some? <==> VoiceKey(userId, guildId) in t
    ensures r.Some? ==> r.value == t[VoiceKey(userId, guildId)]
    ensures WellKeyed(t) && r.Some? ==> r.value.userId == userId && r.value.guildId == guildId
  {
    var k := VoiceKey(userId, guildId);
    if k in t then Some(t[k]) else None
  }

  /** The keys of the rows whose channel is `channelId`. */
  function ChannelKeys(t: Table, channelId: ChannelId): set<VoiceKey> {
    set k | k in t && t[k].channelId == channelId
  }

  /** `findByChannel`: exactly the rows whose channel matches. */
  function FindByChannel(t: Table, channelId: ChannelId): (r: Table)
    ensures forall k :: k in r <==> k in t && t[k].channelId == channelId
    ensures forall k :: k in r ==> r[k] == t[k]
  {
    map k | k in t && t[k].channelId == channelId :: t[k]
  }

  /** `findByGuild`: exactly the rows whose guild matches. The guild is part
      of the primary key, so on a well-keyed table this is a lookup by that
      part of the key. */
  function FindByGuild(t: Table, guildId: GuildId): (r: Table)
    ensures forall k :: k in r <==> k in t && t[k].guildId == guildId
    ensures forall k :: k in r ==> r[k] == t[k]
    ensures WellKeyed(t) ==> forall k :: k in r <==> k in t && k.guildId == guildId
  {
    map k | k in t && t[k].guildId == guildId :: t[k]
  }

  /** `countByChannel`: `SELECT COUNT(*) ... WHERE channel_id = ?`. */
  function CountByChannel(t: Table, channelId: ChannelId): nat {
    |ChannelKeys(t, channelId)|
  }

  /** `countByChannel` as the source reads it. The driver's `execute`
      resolves to a pair of the rows array and the field list, and the
      destructuring `const [result]` takes the rows array; `.cnt` of an array
      is `undefined`. So the count is never read, whatever the table holds;
      `CountByChannel` is the corrected read, `cnt` of the single row. */
  function CountByChannelAsWritten(t: Table, channelId: ChannelId): (r: Option<nat>)
    ensures r != Some(CountByChannel(t, channelId))
    ensures r.None?
  {
    None
  }

  /** The count is the number of rows `findByChannel` returns. */
  lemma CountIsSizeOfFindByChannel(t: Table, channelId: ChannelId)
    ensures CountByChannel(t, channelId) == |FindByChannel(t, channelId)|
  {
    assert FindByChannel(t, channelId).Keys == ChannelKeys(t, channelId);
  }

  /** `deleteByUserAndGuild`: removes the row under that key and nothing else. */
  function DeleteByUserAndGuild(t: Table, userId: UserId, guildId: GuildId): (r: Table)
    ensures VoiceKey(userId, guildId) !in r
    ensures forall k :: k != VoiceKey(userId, guildId) ==> (k in r <==> k in t)
    ensures forall k :: k in r ==> r[k] == t[k]
  {
    t - {VoiceKey(userId, guildId)}
  }

  /** `insert`: stores the given columns with the other flags at their
      defaults; a row already under the key is a primary-key violation. */
  function Insert(t: Table, userId: UserId, guildId: GuildId, channelId: ChannelId, sessionId: string,
                  selfMute: bool, selfDeaf: bool): (r: Result<Table>)
    ensures r.Err? <==> VoiceKey(userId, guildId) in t
    ensures r.Err? ==> r.error == StoreError(DuplicateEntry)
    ensures r.Ok? ==> r.value.Keys == t.Keys + {VoiceKey(userId, guildId)}
    ensures r.Ok? ==> r.value[VoiceKey(userId, guildId)] == NewVoiceState(userId, guildId, channelId, sessionId, selfMute, selfDeaf)
    ensures r.Ok? ==> forall k :: k in t ==> r.value[k] == t[k]
  {
    var k := VoiceKey(userId, guildId);
    if k in t then Err(StoreError(DuplicateEntry))
    else Ok(t[k := NewVoiceState(userId, guildId, channelId, sessionId, selfMute, selfDeaf)])
  }

  /** The columns an `update` may set; `None` leaves a column as it is. */
  datatype VoicePatch = VoicePatch(
    selfMute: Option<bool>,
    selfDeaf: Option<bool>,
    selfStream: Option<bool>,
    selfVideo: Option<bool>,
    mute: Option<bool>,
    deaf: Option<bool>,
    suppress: Option<bool>)
  {
    predicate IsEmpty() {
      selfMute.None? && selfDeaf.None? && selfStream.None? && selfVideo.None? &&
      mute.None? && deaf.None? && suppress.None?
    }
  }

  /** `v` is `prev` with exactly the columns the patch supplies replaced. */
  predicate Patched(prev: VoiceState, patch: VoicePatch, v: VoiceState) {
    && v.userId == prev.userId && v.guildId == prev.guildId
    && v.channelId == prev.channelId && v.sessionId == prev.sessionId
    && v.selfMute == patch.selfMute.GetOr(prev.selfMute)
    && v.selfDeaf == patch.selfDeaf.GetOr(prev.selfDeaf)
    && v.selfStream == patch.selfStream.GetOr(prev.selfStream)
    && v.selfVideo == patch.selfVideo.GetOr(prev.selfVideo)
    && v.mute == patch.mute.GetOr(prev.mute)
    && v.deaf == patch.deaf.GetOr(prev.deaf)
    && v.suppress == patch.suppress.GetOr(prev.suppress)
  }

  function ApplyPatch(v: VoiceState, patch: VoicePatch): (r: VoiceState)
    ensures Patched(v, patch, r)
  {
    v.(selfMute := patch.selfMute.GetOr(v.selfMute),
       selfDeaf := patch.selfDeaf.GetOr(v.selfDeaf),
       selfStream := patch.selfStream.GetOr(v.selfStream),
       selfVideo := patch.selfVideo.GetOr(v.selfVideo),
       mute := patch.mute.GetOr(v.mute),
       deaf := patch.deaf.GetOr(v.deaf),
       suppress := patch.suppress.GetOr(v.suppress))
  }

  /** The table after an `update` and the row read back by the same key. */
  datatype Updated = Updated(table: Table, row: Option<VoiceState>)

  /** `update`: sets the supplied columns of the one keyed row and reads it
      back; with no row under the key nothing changes and null is returned. */
  function Update(t: Table, userId: UserId, guildId: GuildId, patch: VoicePatch): (r: Updated)
    ensures VoiceKey(userId, guildId) !in t ==> r == Updated(t, None)
    ensures VoiceKey(userId, guildId) in t ==>
      && r.row.Some?
      && Patched(t[VoiceKey(userId, guildId)], patch, r.row.value)
      && r.table == t[VoiceKey(userId, guildId) := r.row.value]
    ensures r.table.Keys == t.Keys
    ensures forall k :: k in t && k != VoiceKey(userId, guildId) ==> r.table[k] == t[k]
  {
    var k := VoiceKey(userId, guildId);
    if k in t then
      var v := ApplyPatch(t[k], patch);
      Updated(t[k := v], Some(v))
    else Updated(t, None)
  }

  /** The keys of the rows in `channelId` whose `suppress` flag is `suppress`. */
  function SuppressKeys(t: Table, channelId: ChannelId, suppress: bool): set<VoiceKey> {
    set k | k in t && t[k].channelId == channelId && t[k].suppress == suppress
  }

  /** The user ids of a set of keys. */
  function UsersOf(keys: set<VoiceKey>): set<UserId> {
    set k | k in keys :: k.userId
  }

  /** `findByChannelAndSuppress`: the users whose row in `channelId` has that
      `suppress` flag. */
  function FindByChannelAndSuppress(t: Table, channelId: ChannelId, suppress: bool): (r: set<UserId>)
    ensures forall u :: u in r <==> exists k :: k in t && k.userId == u && t[k].channelId == channelId && t[k].suppress == suppress
  {
    UsersOf(SuppressKeys(t, channelId, suppress))
  }

  /** The suppressed and the unsuppressed rows of a channel partition it. */
  lemma SuppressPartitionsChannel(t: Table, channelId: ChannelId)
    ensures SuppressKeys(t, channelId, true) !! SuppressKeys(t, channelId, false)
    ensures SuppressKeys(t, channelId, true) + SuppressKeys(t, channelId, false) == ChannelKeys(t, channelId)
    ensures FindByChannelAndSuppress(t, channelId, true) + FindByChannelAndSuppress(t, channelId, false)
            == UsersOf(ChannelKeys(t, channelId))
  {
    var a := SuppressKeys(t, channelId, true);
    var b := SuppressKeys(t, channelId, false);
    assert a + b == ChannelKeys(t, channelId);
    assert UsersOf(a) + UsersOf(b) == UsersOf(a + b);
  }

  // ---------------------------------------------------------------------
  // How the writes move channel counts
  // ---------------------------------------------------------------------

  lemma ChannelKeysAfterDelete(t: Table, key: VoiceKey, channelId: ChannelId)
    ensures ChannelKeys(t - {key}, channelId) == ChannelKeys(t, channelId) - {key}
  {
  }

  lemma ChannelKeysAfterStore(t: Table, key: VoiceKey, v: VoiceState, channelId: ChannelId)
    ensures ChannelKeys(t[key := v], channelId) ==
            (ChannelKeys(t, channelId) - {key}) + (if v.channelId == channelId then {key} else {})
  {
  }

  /** Deleting a row never raises a channel's count. */
  lemma DeleteDoesNotRaiseCount(t: Table, userId: UserId, guildId: GuildId, channelId: ChannelId)
    ensures CountByChannel(DeleteByUserAndGuild(t, userId, guildId), channelId) <= CountByChannel(t, channelId)
  {
    var key := VoiceKey(userId, guildId);
    ChannelKeysAfterDelete(t, key, channelId);
    assert DeleteByUserAndGuild(t, userId, guildId) == t - {key};
  }

  /** Inserting a row under a fresh key raises its channel's count by one and
      leaves every other channel's count alone. */
  lemma InsertCount(t: Table, userId: UserId, guildId: GuildId, channelId: ChannelId, sessionId: string,
                    selfMute: bool, selfDeaf: bool, other: ChannelId)
    requires VoiceKey(userId, guildId) !in t
    ensures var r := Insert(t, userId, guildId, channelId, sessionId, selfMute, selfDeaf).value;
            CountByChannel(r, other) == CountByChannel(t, other) + (if other == channelId then 1 else 0)
  {
    var key := VoiceKey(userId, guildId);
    var v := NewVoiceState(userId, guildId, channelId, sessionId, selfMute, selfDeaf);
    ChannelKeysAfterStore(t, key, v, other);
    assert key !in ChannelKeys(t, other);
    assert Insert(t, userId, guildId, channelId, sessionId, selfMute, selfDeaf).value == t[key := v];
  }
}
