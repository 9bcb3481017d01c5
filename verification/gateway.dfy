/** The real-time gateway: a registry of connected sockets and their
    identified sessions, the four handlers a socket can trigger (`identify`,
    `voice_state_update`, `disconnect`, and the handshake before them), and
    the relay of guild channel messages to guild rooms. Each handler is one
    step from a registry and a voice-state table to new ones plus the
    messages it emits; delivery of emitted messages is not modelled. */
module Gateway {
  import opened Common
  import opened Schema
  import opened VoiceStateRepository
  import opened VoiceStateService
  import opened Dispatch
  import opened GatewayAuth

  type SocketId = string

  /** `identify` keeps at most this many guild ids. */
  const MaxGuilds: nat := 200

  const InvalidIdentify: int := 4001
  const UserIdMismatch: int := 4002
  const NotGuildMember: int := 4003

  /** The default channel type and user name of a `voice_state_update`. */
  const DefaultChannelType: int := 2
  const DefaultUsername: string := "Unknown"

  /** An identified session. */
  datatype Session = Session(userId: UserId, sessionId: string, guildIds: seq<GuildId>)

  /** A connected socket: the token its handshake carried and the rooms it
      has joined. */
  datatype Socket = Socket(token: Option<JsValue>, rooms: set<string>)

  /** The connected sockets, the sessions map, and the insertion order of the
      sessions map's keys (the order its `values()` are enumerated in). */
  datatype Registry = Registry(sockets: map<SocketId, Socket>, sessions: map<SocketId, Session>, order: seq<SocketId>)

  /** `order` lists each key of `sessions` exactly once, and only connected
      sockets have sessions. */
  ghost predicate Wf(r: Registry) {
    && (forall i, j :: 0 <= i < j < |r.order| ==> r.order[i] != r.order[j])
    && (forall id :: id in r.sessions <==> id in r.order)
    && r.sessions.Keys <= r.sockets.Keys
  }

  /** What the gateway sends. */
  datatype ServerMessage =
    | ErrorMsg(code: int, message: string)
    | Ready(sessionId: string)
    | VoiceEvent(payload: Envelope)
    | VoiceServerUpdate(guildId: GuildId, token: MediaGrant, endpoint: string)

  /** A message addressed to one socket or to every socket in a room. */
  datatype Emission = ToSocket(socket: SocketId, msg: ServerMessage) | ToRoom(room: string, msg: ServerMessage)

  /** The room of a guild's members. */
  function GuildRoom(guildId: GuildId): string {
    "guild:" + guildId
  }

  /** The broadcast announcing that a user left a guild's voice channel. */
  function LeftEmission(userId: UserId, guildId: GuildId, sessionId: string): Emission {
    ToRoom(GuildRoom(guildId), VoiceEvent(Envelope(VoiceStateUpdate, LeftChannel(userId, guildId, sessionId))))
  }

  /** A handler that touches only the registry. */
  datatype Handled = Handled(registry: Registry, out: seq<Emission>)

  /** A handler that may also change the voice-state table. */
  datatype Step = Step(registry: Registry, table: Table, out: seq<Emission>)

  // ---------------------------------------------------------------------
  // Connection
  // ---------------------------------------------------------------------

  /** A new socket passes the handshake middleware or is refused; an
      admitted socket has joined no room and has no session yet. */
  function Connect(r: Registry, secrets: Secrets, crypto: Crypto, id: SocketId,
                   auth: Option<JsValue>, query: Option<JsValue>, nowMs: int): (r': Registry)
    requires id !in r.sockets
    ensures id in r'.sockets <==> Admits(secrets, crypto, auth, query, nowMs)
    ensures id in r'.sockets ==> r'.sockets[id] == Socket(HandshakeToken(auth, query), {})
    ensures forall other :: other != id ==> (other in r'.sockets <==> other in r.sockets)
    ensures r'.sessions == r.sessions && r'.order == r.order
    ensures Wf(r) ==> Wf(r')
  {
    if Admits(secrets, crypto, auth, query, nowMs) then
      r.(sockets := r.sockets[id := Socket(HandshakeToken(auth, query), {})])
    else r
  }

  // ---------------------------------------------------------------------
  // `identify`
  // ---------------------------------------------------------------------

  /** An `identify` payload: `guildIds` is `None` when it is not an array. */
  datatype IdentifyData = IdentifyData(userId: JsValue, sessionId: JsValue, guildIds: Option<seq<GuildId>>)

  predicate ValidIdentify(data: IdentifyData) {
    data.userId.IsNonEmptyString() && data.sessionId.IsNonEmptyString() && data.guildIds.Some?
  }

  /** The 4002 test: a string token other than the internal key, of three
      parts, whose payload decodes to a truthy `userId` other than the
      claimed one. The signature is not checked again here. */
  predicate ClaimsOtherUser(secrets: Secrets, crypto: Crypto, token: Option<JsValue>, userId: UserId) {
    match token
    case Some(JsString(t)) =>
      && t != secrets.internalApiKey
      && var parts := Split(t, Dot);
         && |parts| == 3
         && crypto.decodeClaims(parts[1]).Some?
         && crypto.decodeClaims(parts[1]).value.userId.ConflictsWith(userId)
    case _ => false
  }

  /** The first `MaxGuilds` guild ids, in order. */
  function TakeGuilds(guildIds: seq<GuildId>): (r: seq<GuildId>)
    ensures |r| <= MaxGuilds
    ensures |guildIds| <= MaxGuilds ==> r == guildIds
    ensures r <= guildIds
  {
    guildIds[..Min(|guildIds|, MaxGuilds)]
  }

  /** The rooms of a list of guilds. */
  function GuildRooms(guildIds: seq<GuildId>): set<string> {
    set g | g in guildIds :: GuildRoom(g)
  }

  /** `identify` on socket `id`. A rejected payload registers nothing. An
      accepted one stores the session under the socket id (a socket that
      identified before keeps its place in the enumeration order), joins the
      rooms of the kept guilds on top of the rooms already joined, and
      answers `ready`. */
  function Identify(r: Registry, secrets: Secrets, crypto: Crypto, id: SocketId, data: IdentifyData): (h: Handled)
    requires id in r.sockets
    ensures !ValidIdentify(data) ==>
      h == Handled(r, [ToSocket(id, ErrorMsg(InvalidIdentify, "Invalid identify payload"))])
    ensures ValidIdentify(data) && ClaimsOtherUser(secrets, crypto, r.sockets[id].token, data.userId.s) ==>
      h == Handled(r, [ToSocket(id, ErrorMsg(UserIdMismatch, "userId mismatch"))])
    ensures ValidIdentify(data) && !ClaimsOtherUser(secrets, crypto, r.sockets[id].token, data.userId.s) ==>
      && id in h.registry.sessions
      && h.registry.sessions[id] == Session(data.userId.s, data.sessionId.s, TakeGuilds(data.guildIds.value))
      && h.registry.sockets == r.sockets[id := r.sockets[id].(rooms := r.sockets[id].rooms + GuildRooms(TakeGuilds(data.guildIds.value)))]
      && h.out == [ToSocket(id, Ready(data.sessionId.s))]
    // a first identify appends the socket to the enumeration order; a repeated one keeps its place
    ensures ValidIdentify(data) && !ClaimsOtherUser(secrets, crypto, r.sockets[id].token, data.userId.s) ==>
      h.registry.order == if id in r.sessions then r.order else r.order + [id]
    // a rejected identify leaves the order alone
    ensures !ValidIdentify(data) || ClaimsOtherUser(secrets, crypto, r.sockets[id].token, data.userId.s) ==>
      h.registry.order == r.order
    // no other socket's session changes
    ensures forall other :: other != id ==>
      (other in h.registry.sessions <==> other in r.sessions) &&
      (other in r.sessions ==> h.registry.sessions[other] == r.sessions[other])
    ensures Wf(r) ==> Wf(h.registry)
  {
    if !ValidIdentify(data) then
      Handled(r, [ToSocket(id, ErrorMsg(InvalidIdentify, "Invalid identify payload"))])
    else if ClaimsOtherUser(secrets, crypto, r.sockets[id].token, data.userId.s) then
      Handled(r, [ToSocket(id, ErrorMsg(UserIdMismatch, "userId mismatch"))])
    else
      var guildIds := TakeGuilds(data.guildIds.value);
      var session := Session(data.userId.s, data.sessionId.s, guildIds);
      var socket := r.sockets[id].(rooms := r.sockets[id].rooms + GuildRooms(guildIds));
      var order := if id in r.sessions then r.order else r.order + [id];
      var r' := Registry(r.sockets[id := socket], r.sessions[id := session], order);
      Handled(r', [ToSocket(id, Ready(data.sessionId.s))])
  }

  /** The internal API key may identify as any user; so may a token whose
      payload names no user. */
  lemma InternalKeyIdentifiesAsAnyone(r: Registry, secrets: Secrets, crypto: Crypto, id: SocketId, data: IdentifyData)
    requires id in r.sockets && r.sockets[id].token == Some(JsString(secrets.internalApiKey))
    requires ValidIdentify(data)
    ensures var h := Identify(r, secrets, crypto, id, data);
            id in h.registry.sessions && h.registry.sessions[id].userId == data.userId.s
  {
  }

  /** A second `identify` on the same socket replaces the session but does
      not leave the rooms of the first: the socket keeps receiving the
      events of guilds it no longer lists. */
  lemma ReidentifyKeepsEarlierRooms(r: Registry, secrets: Secrets, crypto: Crypto, id: SocketId,
                                    first: IdentifyData, second: IdentifyData, g: GuildId)
    requires id in r.sockets
    requires ValidIdentify(first) && !ClaimsOtherUser(secrets, crypto, r.sockets[id].token, first.userId.s)
    requires g in TakeGuilds(first.guildIds.value)
    ensures var h1 := Identify(r, secrets, crypto, id, first);
            var h2 := Identify(h1.registry, secrets, crypto, id, second);
            GuildRoom(g) in h2.registry.sockets[id].rooms
  {
  }

  // ---------------------------------------------------------------------
  // `voice_state_update`
  // ---------------------------------------------------------------------

  /** A `voice_state_update` payload: `channelId` `None` is null (a leave);
      the other `None`s are absent fields. */
  datatype VoiceUpdateData = VoiceUpdateData(
    guildId: GuildId,
    channelId: Option<ChannelId>,
    channelType: Option<int>,
    username: Option<string>,
    userLimit: Option<int>,
    selfMute: Option<bool>,
    selfDeaf: Option<bool>)

  /** `voice_state_update` on socket `id`. Before `identify` it is ignored;
      for a guild outside the session it answers 4003. A null channel leaves
      and announces the leave to the guild room only when a membership
      existed; otherwise it joins as the session's user and session, sends
      alone. A failed join changes nothing and emits nothing: the failure is
      contained to the request, which is the corrected behaviour of the
      as-written handler `HandleVoiceStateUpdateAsWritten`. */
  function HandleVoiceStateUpdate(r: Registry, t: Table, id: SocketId, data: VoiceUpdateData,
                                  livekitUrl: string): (s: Step)
    ensures s.registry == r
    ensures id !in r.sessions ==> s == Step(r, t, [])
    ensures id in r.sessions && data.guildId !in r.sessions[id].guildIds ==>
      s == Step(r, t, [ToSocket(id, ErrorMsg(NotGuildMember, "Not a member of this guild"))])
    // a leave
    ensures id in r.sessions && data.guildId in r.sessions[id].guildIds && data.channelId.None? ==>
      var session := r.sessions[id];
      && s.table == LeaveVoiceChannel(t, session.userId, data.guildId).table
      && s.out == (if VoiceKey(session.userId, data.guildId) in t
                   then [LeftEmission(session.userId, data.guildId, session.sessionId)] else [])
    // a join
    ensures id in r.sessions && data.guildId in r.sessions[id].guildIds && data.channelId.Some? ==>
      var session := r.sessions[id];
      var j := JoinVoiceChannel(t, session.userId, data.guildId, data.channelId.value,
                                data.channelType.GetOr(DefaultChannelType), session.sessionId,
                                data.username.GetOr(DefaultUsername), data.userLimit,
                                data.selfMute, data.selfDeaf, livekitUrl);
      && (j.Err? ==> s.table == t && s.out == [])
      && (j.Ok? ==> s.table == j.value.table)
      && (j.Ok? ==>
            s.out == [ToRoom(GuildRoom(data.guildId), VoiceEvent(Envelope(VoiceStateUpdate,
                                                                 JoinedState(j.value.state, j.value.token, livekitUrl)))),
                      ToSocket(id, VoiceServerUpdate(data.guildId, j.value.token, livekitUrl))])
  {
    if id !in r.sessions then Step(r, t, [])
    else
      var session := r.sessions[id];
      if data.guildId !in session.guildIds then
        Step(r, t, [ToSocket(id, ErrorMsg(NotGuildMember, "Not a member of this guild"))])
      else
        match data.channelId
        case None =>
          var left := LeaveVoiceChannel(t, session.userId, data.guildId);
          if left.previous.Some? then
            Step(r, left.table, [LeftEmission(session.userId, data.guildId, session.sessionId)])
          else Step(r, left.table, [])
        case Some(channelId) =>
          match JoinVoiceChannel(t, session.userId, data.guildId, channelId,
                                 data.channelType.GetOr(DefaultChannelType), session.sessionId,
                                 data.username.GetOr(DefaultUsername), data.userLimit,
                                 data.selfMute, data.selfDeaf, livekitUrl)
          case Err(_) => Step(r, t, [])
          case Ok(joined) =>
            Step(r, joined.table,
                 [ToRoom(GuildRoom(data.guildId), VoiceEvent(Envelope(VoiceStateUpdate,
                                                            JoinedState(joined.state, joined.token, livekitUrl)))),
                  ToSocket(id, VoiceServerUpdate(data.guildId, joined.token, livekitUrl))])
  }

  /** What a `voice_state_update` leaves of the process: it carries on with
      a step, or it ends because of the failure the listener let escape. */
  datatype Outcome = Continues(step: Step) | Crashes(failure: Failure)

  /** `voice_state_update` as written. The listener is an async function
      with no `catch`: a join that throws rejects a promise nobody awaits,
      and the process installs no handler for unhandled rejections, so
      Node's default ends the process. Every other path is the step of
      `HandleVoiceStateUpdate`. */
  function HandleVoiceStateUpdateAsWritten(r: Registry, t: Table, id: SocketId, data: VoiceUpdateData,
                                           livekitUrl: string): (o: Outcome)
    ensures o.Crashes? <==>
      && id in r.sessions && data.guildId in r.sessions[id].guildIds && data.channelId.Some?
      && JoinVoiceChannel(t, r.sessions[id].userId, data.guildId, data.channelId.value,
                          data.channelType.GetOr(DefaultChannelType), r.sessions[id].sessionId,
                          data.username.GetOr(DefaultUsername), data.userLimit,
                          data.selfMute, data.selfDeaf, livekitUrl).Err?
    ensures o.Continues? ==> o.step == HandleVoiceStateUpdate(r, t, id, data, livekitUrl)
  {
    if id in r.sessions && data.guildId in r.sessions[id].guildIds && data.channelId.Some? then
      var session := r.sessions[id];
      match JoinVoiceChannel(t, session.userId, data.guildId, data.channelId.value,
                             data.channelType.GetOr(DefaultChannelType), session.sessionId,
                             data.username.GetOr(DefaultUsername), data.userLimit,
                             data.selfMute, data.selfDeaf, livekitUrl)
      case Err(e) => Crashes(e)
      case Ok(_) => Continues(HandleVoiceStateUpdate(r, t, id, data, livekitUrl))
    else Continues(HandleVoiceStateUpdate(r, t, id, data, livekitUrl))
  }

  /** As written, one identified client ends the process for everyone: a
      join naming a text channel (type 0) in a guild of its session is
      refused by the service, and the refusal escapes the listener. */
  lemma TextChannelJoinCrashesAsWritten(r: Registry, t: Table, id: SocketId, data: VoiceUpdateData,
                                        livekitUrl: string)
    requires id in r.sessions && data.guildId in r.sessions[id].guildIds
    requires data.channelId.Some? && data.channelType == Some(0)
    ensures HandleVoiceStateUpdateAsWritten(r, t, id, data, livekitUrl) == Crashes(NotVoiceChannel)
  {
  }

  /** The corrected handler on the same input: the request is dropped, the
      table, the registry and every other socket are as they were, and the
      gateway keeps serving. */
  lemma TextChannelJoinIsContained(r: Registry, t: Table, id: SocketId, data: VoiceUpdateData,
                                   livekitUrl: string)
    requires id in r.sessions && data.guildId in r.sessions[id].guildIds
    requires data.channelId.Some? && data.channelType == Some(0)
    ensures HandleVoiceStateUpdate(r, t, id, data, livekitUrl) == Step(r, t, [])
  {
  }

  /** A socket can only change its own session user's row in a guild its
      session lists; every other row is left as it was. */
  lemma VoiceUpdateTouchesOnlyOwnRow(r: Registry, t: Table, id: SocketId, data: VoiceUpdateData,
                                     livekitUrl: string, k: VoiceKey)
    requires id !in r.sessions || data.guildId !in r.sessions[id].guildIds ||
             k != VoiceKey(r.sessions[id].userId, data.guildId)
    ensures var s := HandleVoiceStateUpdate(r, t, id, data, livekitUrl);
            (k in s.table <==> k in t) && (k in t ==> s.table[k] == t[k])
  {
  }

  /** The media grant is sent as a `voice_server_update` to the joining
      socket alone, but the same grant also travels inside the joined state
      broadcast to the whole guild room. */
  lemma JoinGrantReachesGuildRoom(r: Registry, t: Table, id: SocketId, data: VoiceUpdateData, livekitUrl: string)
    requires id in r.sessions && data.guildId in r.sessions[id].guildIds && data.channelId.Some?
    ensures var s := HandleVoiceStateUpdate(r, t, id, data, livekitUrl);
            && (forall e :: e in s.out && e.msg.VoiceServerUpdate? ==> e == ToSocket(id, e.msg))
            && (s.out != [] ==>
                  && |s.out| == 2
                  && s.out[0].ToRoom? && s.out[0].room == GuildRoom(data.guildId)
                  && s.out[0].msg.VoiceEvent? && s.out[0].msg.payload.data.JoinedState?
                  && s.out[1].msg.VoiceServerUpdate?
                  && s.out[0].msg.payload.data.token == s.out[1].msg.token)
  {
  }

  // ---------------------------------------------------------------------
  // `disconnect`
  // ---------------------------------------------------------------------

  /** The sessions map's key order with `id` deleted. */
  function RemoveId(order: seq<SocketId>, id: SocketId): (r: seq<SocketId>)
    ensures forall x :: x in r <==> x in order && x != id
    ensures (forall i, j :: 0 <= i < j < |order| ==> order[i] != order[j]) ==>
            (forall i, j :: 0 <= i < j < |r| ==> r[i] != r[j])
  {
    if |order| == 0 then []
    else if order[0] == id then RemoveId(order[1..], id)
    else
      var rest := RemoveId(order[1..], id);
      assert (forall i, j :: 0 <= i < j < |order| ==> order[i] != order[j]) ==>
             (forall i, j :: 0 <= i < j < |order[1..]| ==> order[1..][i] != order[1..][j]) && order[0] !in order[1..];
      [order[0]] + rest
  }

  /** The position in `order` of the first session of `userId`:
      `Array.from(sessions.values()).find(...)`. */
  function FirstSessionOf(order: seq<SocketId>, sessions: map<SocketId, Session>, userId: UserId): (r: Option<nat>)
    ensures r.Some? ==> r.value < |order| && order[r.value] in sessions && sessions[order[r.value]].userId == userId
    ensures r.Some? ==> forall i :: 0 <= i < r.value && order[i] in sessions ==> sessions[order[i]].userId != userId
    ensures r.None? ==> forall i :: 0 <= i < |order| && order[i] in sessions ==> sessions[order[i]].userId != userId
  {
    if |order| == 0 then None
    else if order[0] in sessions && sessions[order[0]].userId == userId then Some(0)
    else
      match FirstSessionOf(order[1..], sessions, userId)
      case None => None
      case Some(i) => Some(i + 1)
  }

  /** The table and the broadcasts after the cleanup loop. */
  datatype Swept = Swept(table: Table, out: seq<Emission>)

  /** A broadcast of the cleanup loop: a leave of `userId` from one of
      `guildIds`. */
  predicate AnnouncesLeave(e: Emission, userId: UserId, sessionId: string, guildIds: seq<GuildId>) {
    && e.ToRoom? && e.msg.VoiceEvent? && e.msg.payload.data.LeftChannel?
    && e.msg.payload.data.guildId in guildIds
    && e == LeftEmission(userId, e.msg.payload.data.guildId, sessionId)
  }

  /** The cleanup loop: a leave per guild, in order, each announced when a
      membership existed. The leave of a guild in `failing` raises; the
      error is swallowed and the loop goes on with the next guild. */
  function Sweep(t: Table, userId: UserId, sessionId: string, guildIds: seq<GuildId>, failing: set<GuildId>): (s: Swept)
    // only deletes, and only this user's rows in guilds whose leave went through
    ensures s.table.Keys <= t.Keys
    ensures forall k :: k in s.table ==> s.table[k] == t[k]
    ensures forall k :: k in t && (k.userId != userId || k.guildId !in guildIds || k.guildId in failing) ==> k in s.table
    ensures forall g :: g in guildIds && g !in failing ==> VoiceKey(userId, g) !in s.table
    // one announcement for every membership that was there, and no other kind
    ensures forall g :: g in guildIds && g !in failing && VoiceKey(userId, g) in t ==>
      LeftEmission(userId, g, sessionId) in s.out
    ensures forall e :: e in s.out ==> AnnouncesLeave(e, userId, sessionId, guildIds)
    // and an announcement only for a membership that existed and whose leave went through
    ensures forall g :: LeftEmission(userId, g, sessionId) in s.out ==>
      g in guildIds && g !in failing && VoiceKey(userId, g) in t
    decreases |guildIds|
  {
    if |guildIds| == 0 then Swept(t, [])
    else
      var g := guildIds[0];
      var first :=
        if g in failing then Swept(t, [])
        else
          var left := LeaveVoiceChannel(t, userId, g);
          Swept(left.table, if left.previous.Some? then [LeftEmission(userId, g, sessionId)] else []);
      var rest := Sweep(first.table, userId, sessionId, guildIds[1..], failing);
      assert forall x :: x in guildIds[1..] ==> x in guildIds;
      assert forall x :: x in guildIds ==> x == g || x in guildIds[1..];
      Swept(rest.table, first.out + rest.out)
  }

  /** `disconnect` of socket `id`. The socket and its session leave the
      registry. Cleanup is skipped when the first remaining session of the
      same user has a different session id (a reconnect that beat the
      disconnect); otherwise every guild of the session is swept. */
  function Disconnect(r: Registry, t: Table, id: SocketId, failing: set<GuildId>): (s: Step)
    ensures id !in s.registry.sockets && id !in s.registry.sessions
    ensures s.registry.sockets == r.sockets - {id}
    ensures forall other :: other != id ==>
      (other in s.registry.sessions <==> other in r.sessions) &&
      (other in r.sessions ==> s.registry.sessions[other] == r.sessions[other])
    ensures id !in r.sessions ==> s.table == t && s.out == []
    // the first remaining session of the user, in insertion order, decides
    ensures id in r.sessions ==>
      var gone := r.sessions[id];
      var order := RemoveId(r.order, id);
      var current := FirstSessionOf(order, s.registry.sessions, gone.userId);
      var sweep := Sweep(t, gone.userId, gone.sessionId, gone.guildIds, failing);
      if current.Some? && s.registry.sessions[order[current.value]].sessionId != gone.sessionId
      then s.table == t && s.out == []
      else s.table == sweep.table && s.out == sweep.out
    ensures Wf(r) ==> Wf(s.registry)
  {
    var sockets := r.sockets - {id};
    if id !in r.sessions then Step(r.(sockets := sockets), t, [])
    else
      var gone := r.sessions[id];
      var sessions := r.sessions - {id};
      var order := RemoveId(r.order, id);
      var r' := Registry(sockets, sessions, order);
      var current := FirstSessionOf(order, sessions, gone.userId);
      if current.Some? && sessions[order[current.value]].sessionId != gone.sessionId then
        Step(r', t, [])
      else
        var sweep := Sweep(t, gone.userId, gone.sessionId, gone.guildIds, failing);
        Step(r', sweep.table, sweep.out)
  }

  /** Skipping the removed socket does not move the first session of a user:
      with `id` gone from the sessions, the first match in the order without
      `id` is the first match in the original order. */
  lemma {:induction false} FirstSessionSkippingId(order: seq<SocketId>, sessions: map<SocketId, Session>,
                                                  id: SocketId, userId: UserId, k: nat)
    requires id !in sessions
    requires k < |order| && order[k] in sessions && sessions[order[k]].userId == userId
    requires forall j :: 0 <= j < k && order[j] in sessions ==> sessions[order[j]].userId != userId
    ensures var f := FirstSessionOf(RemoveId(order, id), sessions, userId);
            f.Some? && RemoveId(order, id)[f.value] == order[k]
    decreases |order|
  {
    var rest := order[1..];
    if order[0] == id {
      FirstSessionSkippingId(rest, sessions, id, userId, k - 1);
    } else if k > 0 {
      FirstSessionSkippingId(rest, sessions, id, userId, k - 1);
      FirstSessionPastNonMatch(order[0], RemoveId(rest, id), sessions, userId);
    } else {
      assert RemoveId(order, id) == [order[0]] + RemoveId(rest, id);
    }
  }

  /** A leading socket that is not a session of the user shifts the first
      match by one. */
  lemma FirstSessionPastNonMatch(x: SocketId, tail: seq<SocketId>, sessions: map<SocketId, Session>, userId: UserId)
    requires x !in sessions || sessions[x].userId != userId
    ensures var f := FirstSessionOf(tail, sessions, userId);
            FirstSessionOf([x] + tail, sessions, userId) == if f.Some? then Some(f.value + 1) else None
  {
    assert ([x] + tail)[1..] == tail;
  }

  /** The reconnect rule in full, for any mix of remaining sessions: take
      the user's first other session in the registry's order; a different
      session id there means nothing is cleaned up, the same one means the
      full sweep. */
  lemma FirstRemainingSessionDecides(r: Registry, t: Table, id: SocketId, failing: set<GuildId>, k: nat)
    requires id in r.sessions
    requires k < |r.order| && r.order[k] != id && r.order[k] in r.sessions
    requires r.sessions[r.order[k]].userId == r.sessions[id].userId
    requires forall j :: 0 <= j < k && r.order[j] != id && r.order[j] in r.sessions ==>
                         r.sessions[r.order[j]].userId != r.sessions[id].userId
    ensures var gone := r.sessions[id];
            var s := Disconnect(r, t, id, failing);
            var sweep := Sweep(t, gone.userId, gone.sessionId, gone.guildIds, failing);
            && (r.sessions[r.order[k]].sessionId != gone.sessionId ==> s.table == t && s.out == [])
            && (r.sessions[r.order[k]].sessionId == gone.sessionId ==> s.table == sweep.table && s.out == sweep.out)
  {
    var gone := r.sessions[id];
    FirstSessionSkippingId(r.order, r.sessions - {id}, id, gone.userId, k);
  }

  /** The last session of a user to go runs the full sweep. */
  lemma LastSessionCleansUp(r: Registry, t: Table, id: SocketId, failing: set<GuildId>)
    requires id in r.sessions
    requires forall o :: o in r.sessions && o != id ==> r.sessions[o].userId != r.sessions[id].userId
    ensures var gone := r.sessions[id];
            var s := Disconnect(r, t, id, failing);
            var sweep := Sweep(t, gone.userId, gone.sessionId, gone.guildIds, failing);
            s.table == sweep.table && s.out == sweep.out
  {
  }

  /** A reconnect under a new session id keeps the user's memberships: when
      every other live session of the user has another session id, the old
      socket's disconnect changes nothing and announces nothing. */
  lemma NewerSessionSkipsCleanup(r: Registry, t: Table, id: SocketId, failing: set<GuildId>, other: SocketId)
    requires Wf(r) && id in r.sessions && other in r.sessions && other != id
    requires r.sessions[other].userId == r.sessions[id].userId
    requires forall o :: o in r.sessions && o != id && r.sessions[o].userId == r.sessions[id].userId ==>
                         r.sessions[o].sessionId != r.sessions[id].sessionId
    ensures var s := Disconnect(r, t, id, failing);
            s.table == t && s.out == []
  {
    var gone := r.sessions[id];
    var sessions := r.sessions - {id};
    var order := RemoveId(r.order, id);
    assert other in order;
    var k :| 0 <= k < |order| && order[k] == other;
    assert order[k] in sessions && sessions[order[k]].userId == gone.userId;
    var f := FirstSessionOf(order, sessions, gone.userId);
    assert f.Some?;
    assert order[f.value] in r.sessions && order[f.value] != id;
  }

  /** When every other live session of the user carries the same session id
      (or there is none), the cleanup runs in full: each membership in the
      session's guilds whose leave goes through is removed and announced,
      even though the user may still be connected. */
  lemma SameSessionIdStillCleansUp(r: Registry, t: Table, id: SocketId, failing: set<GuildId>, g: GuildId)
    requires Wf(r) && id in r.sessions
    requires forall o :: o in r.sessions && o != id && r.sessions[o].userId == r.sessions[id].userId ==>
                         r.sessions[o].sessionId == r.sessions[id].sessionId
    requires g in r.sessions[id].guildIds && g !in failing
    ensures var s := Disconnect(r, t, id, failing);
            && VoiceKey(r.sessions[id].userId, g) !in s.table
            && (VoiceKey(r.sessions[id].userId, g) in t ==>
                  LeftEmission(r.sessions[id].userId, g, r.sessions[id].sessionId) in s.out)
  {
    var gone := r.sessions[id];
    var sessions := r.sessions - {id};
    var order := RemoveId(r.order, id);
    var f := FirstSessionOf(order, sessions, gone.userId);
    assert f.Some? ==> order[f.value] in r.sessions && order[f.value] != id;
  }

  // ---------------------------------------------------------------------
  // The relay of guild channels
  // ---------------------------------------------------------------------

  /** A pub/sub message: a parsed JSON envelope, or text that does not parse. */
  datatype RawMessage = Json(payload: Envelope) | Malformed

  /** The `pmessage` handler: the envelope goes to the room of the guild
      whose id remains after removing the channel prefix; a malformed
      message is dropped. */
  function Relay(channel: string, message: RawMessage): (out: seq<Emission>)
    ensures message.Malformed? ==> out == []
    ensures message.Json? ==> |out| == 1 && out[0].ToRoom? && out[0].msg == VoiceEvent(message.payload)
    // a channel of the subscribed pattern reaches exactly its own guild's room
    ensures message.Json? && MatchesGuildPattern(channel) ==>
      exists g :: GuildChannel(g) == channel && out[0].room == GuildRoom(g)
  {
    match message
    case Malformed => []
    case Json(payload) =>
      var g := ReplaceFirst(channel, ChannelPrefix, "");
      assert MatchesGuildPattern(channel) ==> GuildChannel(g) == channel by {
        if MatchesGuildPattern(channel) {
          GuildChannelOfStripped(channel);
        }
      }
      [ToRoom(GuildRoom(g), VoiceEvent(payload))]
  }

  /** End to end: what a dispatch publishes for a guild is relayed to that
      guild's room, and to no other. */
  lemma DispatchReachesGuildRoom(bus: Bus, guildId: GuildId, event: string, data: EventData, now: int)
    ensures var p := Last(DispatchGuild(bus, guildId, event, data, now).published);
            Relay(p.channel, Json(p.payload)) == [ToRoom(GuildRoom(guildId), VoiceEvent(Envelope(event, data)))]
  {
    StripGuildChannel(guildId);
  }

  function Last<T>(s: seq<T>): T
    requires |s| > 0
  {
    s[|s| - 1]
  }
}
