/**
 The replay demo, and its layout on the wire.

 For each record `XF` is the format its reader accepts and `XV` the value its writer lays out; `XOk` says, field
 by field, when a record is within the limits of the reader.  Enumerations are raw bytes, as the source
 stores them, so an out-of-range one can be written but not read.
 */
module ReplayDemo {
  import opened Words
  import opened Format
  import opened Codec
  import opened SimTypes

  const MAGIC: U32 := 0x444D_434E
  const FORMAT_VERSION: U32 := 2
  const LEGACY_FORMAT_VERSION: U32 := 1

  const MAX_COMMANDS: U32 := 1_000_000
  const MAX_EVENTS: U32 := 1_000_000
  const MAX_KEYFRAMES: U32 := 120_000
  const MAX_CLIENTS: U32 := 64
  const MAX_CLIENT_EVENTS: U32 := 1_000_000
  const MAX_WORLD_PLAYERS: U32 := 256
  const MAX_WORLD_ENEMIES: U32 := 4_096
  const MAX_WORLD_ROSTER: U32 := 512
  const MAX_WORLD_SPAWNS: U32 := 4_096
  const MAX_COLLISION_BOXES: U32 := 4_096

  const LAST_TEAM: U8 := 3
  const LAST_PRESENCE: U8 := 2
  const LAST_PARTICIPATION: U8 := 2
  const LAST_BINDING: U8 := 1
  const LAST_STRATEGY: U8 := 1
  const LAST_TRACK: U8 := 1
  const LAST_STAGE: U8 := 1
  const LAST_RUNTIME_EVENT: U8 := 1
  const LAST_SNAPSHOT_EVENT: U8 := 4
  const LAST_PERCEPTION_EVENT: U8 := 3
  const LAST_SHOT_MODE: U8 := 1

  // ---------------------------------------------------------------------------------------------
  // Data

  datatype CollisionBox = CollisionBox(center: Vec3<F32>, halfSize: Vec3<F32>)

  datatype MovementEnvironment = MovementEnvironment(arenaHalfSize: F32, collisionBoxes: seq<CollisionBox>)

  datatype ControlBinding = ControlBinding(kind: U8, actorId: I32)

  datatype RosterEntry = RosterEntry(
    actorId: I32,
    team: U8,
    sessionPresence: U8,
    participation: U8,
    control: ControlBinding,
    isBot: bool,
    kills: U16,
    deaths: U16,
    assists: U16,
    alive: bool,
    interpolationEnabled: bool,
    predictionEnabled: bool,
    reconciliationStrategy: U8,
    smoothCorrectionWindowMs: U32,
    latencyMs: U16,
    lossPct: U8,
    displayName: Bytes)

  datatype TimingCadence = TimingCadence(authoritativeTickHz: U16, snapshotCadenceHz: U16, commandCadenceHz: U16)

  datatype AuthoritativeTime = AuthoritativeTime(serverTick: U32, serverTimeUs: U64, viewedServerTimeUs: U64)

  datatype TeamScores = TeamScores(attackers: U16, defenders: U16)

  datatype SessionMetadata = SessionMetadata(
    sessionId: U32,
    levelSlot: I32,
    levelHash: U32,
    maxHumanPlayers: U16,
    connectedHumanPlayers: U16,
    connectedBotPlayers: U16)

  datatype WorldState = WorldState(
    environment: MovementEnvironment,
    cadence: TimingCadence,
    authoritativeTime: AuthoritativeTime,
    players: seq<PlayerState<F32>>,
    enemies: seq<RemoteActorState<F32>>,
    roster: seq<RosterEntry>,
    teamScores: TeamScores,
    sessionMetadata: SessionMetadata,
    playerSpawns: seq<Vec3<F32>>,
    enemySpawns: seq<Vec3<F32>>,
    enemyWaypointIndices: seq<U64>,
    enemyRespawnTimers: seq<F32>)

  datatype PlayerCommand = PlayerCommand(
    seqNo: U32,
    dtSeconds: F32,
    moveX: F32,
    moveY: F32,
    yaw: F32,
    pitch: F32,
    buttons: U32,
    viewedServerTimeUs: U64,
    interpDelayMs: U32,
    controlViewedServerTimeUs: U64,
    controlInterpDelayMs: U32,
    requestedTeam: U8,
    reportedLatencyMs: U16,
    reportedLossPct: U8)

  datatype ServerCommandEvent = ServerCommandEvent(
    track: U8,
    stage: U8,
    peerId: U16,
    actorId: I32,
    serverTick: U32,
    serverTimeUs: U64,
    command: PlayerCommand)

  datatype RuntimeEvent = RuntimeEvent(
    kind: U8,
    serverTick: U32,
    serverTimeUs: U64,
    peerId: U16,
    key: Bytes,
    value: F32,
    applied: bool)

  datatype SnapshotEvent = SnapshotEvent(
    kind: U8,
    sourcePlayerId: I32,
    targetEntityId: I32,
    origin: Vec3<F32>,
    direction: Vec3<F32>,
    hit: bool)

  datatype CombatEvent = CombatEvent(serverTick: U32, serverTimeUs: U64, event: SnapshotEvent)

  datatype WorldKeyframe = WorldKeyframe(
    track: U8,
    serverTick: U32,
    serverTimeUs: U64,
    worldState: WorldState,
    controlPlayers: seq<PlayerState<F32>>)

  datatype PerceptionEvent = PerceptionEvent(
    kind: U8,
    clientFrame: U32,
    clientTimeUs: U64,
    serverTick: U32,
    serverTimeUs: U64,
    commandSeq: U32,
    correctionMagnitude: F32,
    yaw: F32,
    pitch: F32,
    predictionEnabled: bool,
    interpolationEnabled: bool)

  datatype PerceptionTrack = PerceptionTrack(peerId: U16, playerName: Bytes, events: seq<PerceptionEvent>)

  /** The header fields that only the current version carries. */
  datatype ShotPolicy = ShotPolicy(
    maxRewindMs: U32,
    respawnDelaySeconds: F32,
    spawnProtectionSeconds: F32,
    shotEvaluationMode: U8)

  /** What a demo without the policy fields is given: 500 ms, 5.0f, 0.0f and the seen position. */
  const DEFAULT_POLICY := ShotPolicy(500, 0x40A0_0000, 0, 0)

  datatype Header = Header(
    formatVersion: U32,
    protocolVersion: U16,
    levelSlot: I32,
    levelHash: U32,
    tickRateHz: U16,
    snapshotRateHz: U16,
    simConfigVersion: U32,
    recordedAtUnixSeconds: U64,
    startedServerTimeUs: U64,
    durationUs: U64,
    policy: ShotPolicy,
    hasControlLane: bool,
    hasClientPerceptionTracks: bool,
    title: Bytes,
    sourceLabel: Bytes)

  datatype Demo = Demo(
    header: Header,
    simConfig: SimConfig<F32>,
    worldState: WorldState,
    commandEvents: seq<ServerCommandEvent>,
    runtimeEvents: seq<RuntimeEvent>,
    combatEvents: seq<CombatEvent>,
    keyframes: seq<WorldKeyframe>,
    clientTracks: seq<PerceptionTrack>)

  /** A string that can be written: a longer one makes the writer throw. */
  predicate Fits(s: Bytes) {
    |s| <= MAX_STRING
  }

  predicate RosterFits(roster: seq<RosterEntry>) {
    forall i :: 0 <= i < |roster| ==> Fits(roster[i].displayName)
  }

  predicate StartFits(d: Demo) {
    Fits(d.header.title) && Fits(d.header.sourceLabel) && RosterFits(d.worldState.roster)
  }

  predicate RuntimeEventsFit(events: seq<RuntimeEvent>) {
    forall i :: 0 <= i < |events| ==> Fits(events[i].key)
  }

  predicate KeyframesFit(keyframes: seq<WorldKeyframe>) {
    forall i :: 0 <= i < |keyframes| ==> RosterFits(keyframes[i].worldState.roster)
  }

  predicate TracksFit(tracks: seq<PerceptionTrack>) {
    forall i :: 0 <= i < |tracks| ==> Fits(tracks[i].playerName)
  }

  predicate EventsFit(d: Demo) {
    RuntimeEventsFit(d.runtimeEvents) && KeyframesFit(d.keyframes) && TracksFit(d.clientTracks)
  }

  predicate StringsFit(d: Demo) {
    StartFits(d) && EventsFit(d)
  }

  // ---------------------------------------------------------------------------------------------
  // Layout

  function N8(n: U8): Val { VNum(1, n) }
  function N16(n: U16): Val { VNum(2, n) }
  function N32(n: U32): Val { VNum(4, n) }
  function N64(n: U64): Val { VNum(8, n) }
  function NI(i: I32): Val { VNum(4, Bits(i)) }

  function Vec3F(): Fmt { FPair(FU32(), FPair(FU32(), FU32())) }
  function Vec3V(v: Vec3<F32>): Val { VPair(N32(v.x), VPair(N32(v.y), N32(v.z))) }

  function PlayerBodyF(): Fmt { FQuad(FU32(), Vec3F(), Vec3F(), FU32()) }
  function PlayerBodyV(playerId: I32, position: Vec3<F32>, velocity: Vec3<F32>, yaw: F32): Val {
    VQuad(NI(playerId), Vec3V(position), Vec3V(velocity), N32(yaw))
  }

  function PlayerF(): Fmt {
    FQuad(PlayerBodyF(), FQuad(FU32(), FU32(), FU32(), FU32()), FU32(), FBool)
  }
  function PlayerV(p: PlayerState<F32>): Val {
    VQuad(PlayerBodyV(p.playerId, p.position, p.velocity, p.yaw),
          VQuad(N32(p.pitch), N32(p.health), N32(p.maxHealth), N32(p.weaponCooldownRemaining)),
          NI(p.jumpsUsed),
          VBool(p.grounded))
  }

  function ActorF(): Fmt {
    FPair(FQuad(FU32(), Vec3F(), Vec3F(), FU32()), FQuad(FU32(), FU32(), FU32(), FBool))
  }
  function ActorV(a: RemoteActorState<F32>): Val {
    VPair(VQuad(NI(a.entityId), Vec3V(a.position), Vec3V(a.velocity), N32(a.yaw)),
          VQuad(N32(a.pitch), N32(a.health), N32(a.radius), VBool(a.alive)))
  }

  function BindingF(): Fmt { FPair(FEnum(LAST_BINDING), FU32()) }
  function BindingV(c: ControlBinding): Val { VPair(N8(c.kind), NI(c.actorId)) }

  function RosterRoleF(): Fmt {
    FPair(FQuad(FU32(), FEnum(LAST_TEAM), FEnum(LAST_PRESENCE), FEnum(LAST_PARTICIPATION)),
          FQuad(BindingF(), FBool, FU16(), FU16()))
  }
  function RosterRoleV(e: RosterEntry): Val {
    VPair(VQuad(NI(e.actorId), N8(e.team), N8(e.sessionPresence), N8(e.participation)),
          VQuad(BindingV(e.control), VBool(e.isBot), N16(e.kills), N16(e.deaths)))
  }

  function RosterStatusF(): Fmt {
    FPair(FQuad(FU16(), FBool, FBool, FBool), FQuad(FEnum(LAST_STRATEGY), FU32(), FU16(), FU8()))
  }
  function RosterStatusV(e: RosterEntry): Val {
    VPair(VQuad(N16(e.assists), VBool(e.alive), VBool(e.interpolationEnabled), VBool(e.predictionEnabled)),
          VQuad(N8(e.reconciliationStrategy), N32(e.smoothCorrectionWindowMs), N16(e.latencyMs), N8(e.lossPct)))
  }

  function RosterF(): Fmt { FPair(RosterRoleF(), FPair(RosterStatusF(), FStr)) }
  function RosterV(e: RosterEntry): Val { VPair(RosterRoleV(e), VPair(RosterStatusV(e), VStr(e.displayName))) }

  function BoxF(): Fmt { FPair(Vec3F(), Vec3F()) }
  function BoxV(b: CollisionBox): Val { VPair(Vec3V(b.center), Vec3V(b.halfSize)) }

  function EnvironmentF(): Fmt { FPair(FU32(), FList(MAX_COLLISION_BOXES, BoxF())) }
  function EnvironmentV(e: MovementEnvironment): Val {
    VPair(N32(e.arenaHalfSize), ListOf(BoxV, e.collisionBoxes))
  }

  function MovementF(): Fmt { FPair(FQuad(FU32(), FU32(), FU32(), FU32()), FQuad(FU32(), FU32(), FU32(), FU32())) }
  function MovementV(c: SimConfig<F32>): Val {
    VPair(VQuad(N32(c.playerEyeHeight), N32(c.playerMoveSpeed), N32(c.playerJumpVelocity), N32(c.playerGravity)),
          VQuad(NI(c.playerMaxJumps), N32(c.playerRadius), N32(c.playerCollisionHeight), N32(c.minPitch)))
  }

  function CombatF(): Fmt { FPair(FQuad(FU32(), FU32(), FU32(), FU32()), FQuad(FU32(), FU32(), FU32(), FU32())) }
  function CombatV(c: SimConfig<F32>): Val {
    VPair(VQuad(N32(c.maxPitch), N32(c.playerMaxHealth), N32(c.enemyRadius), N32(c.enemyMaxHealth)),
          VQuad(N32(c.weaponCooldownSeconds), N32(c.weaponDamage), N32(c.weaponRange), N32(c.arenaHalfSize)))
  }

  function SimConfigF(): Fmt { FPair(MovementF(), CombatF()) }
  function SimConfigV(c: SimConfig<F32>): Val { VPair(MovementV(c), CombatV(c)) }

  function CadenceF(): Fmt { FPair(FU16(), FPair(FU16(), FU16())) }
  function CadenceV(c: TimingCadence): Val {
    VPair(N16(c.authoritativeTickHz), VPair(N16(c.snapshotCadenceHz), N16(c.commandCadenceHz)))
  }

  function TimeF(): Fmt { FPair(FU32(), FPair(FU64(), FU64())) }
  function TimeV(t: AuthoritativeTime): Val {
    VPair(N32(t.serverTick), VPair(N64(t.serverTimeUs), N64(t.viewedServerTimeUs)))
  }

  function SessionF(): Fmt { FQuad(FPair(FU16(), FU16()), FQuad(FU32(), FU32(), FU32(), FU16()), FU16(), FU16()) }
  function SessionV(s: TeamScores, m: SessionMetadata): Val {
    VQuad(VPair(N16(s.attackers), N16(s.defenders)),
          VQuad(N32(m.sessionId), NI(m.levelSlot), N32(m.levelHash), N16(m.maxHumanPlayers)),
          N16(m.connectedHumanPlayers),
          N16(m.connectedBotPlayers))
  }

  /** A waypoint index is cast to 32 bits when written. */
  function IndexV(i: U64): Val { VNum(4, i) }

  function WorldFrontF(): Fmt { FQuad(EnvironmentF(), CadenceF(), TimeF(), FList(MAX_WORLD_PLAYERS, PlayerF())) }
  function WorldFrontV(
    environment: MovementEnvironment, cadence: TimingCadence, time: AuthoritativeTime, players: seq<PlayerState<F32>>
  ): Val
  {
    VQuad(EnvironmentV(environment), CadenceV(cadence), TimeV(time), ListOf(PlayerV, players))
  }

  function WorldF(): Fmt {
    FQuad(WorldFrontF(),
          FQuad(FList(MAX_WORLD_ENEMIES, ActorF()), FList(MAX_WORLD_ROSTER, RosterF()), SessionF(),
                FList(MAX_WORLD_SPAWNS, Vec3F())),
          FList(MAX_WORLD_SPAWNS, Vec3F()),
          FPair(FList(MAX_WORLD_SPAWNS, FU32()), FList(MAX_WORLD_SPAWNS, FU32())))
  }
  function WorldV(w: WorldState): Val {
    VQuad(WorldFrontV(w.environment, w.cadence, w.authoritativeTime, w.players),
          VQuad(ListOf(ActorV, w.enemies), ListOf(RosterV, w.roster), SessionV(w.teamScores, w.sessionMetadata),
                ListOf(Vec3V, w.playerSpawns)),
          ListOf(Vec3V, w.enemySpawns),
          VPair(ListOf(IndexV, w.enemyWaypointIndices), ListOf(N32, w.enemyRespawnTimers)))
  }

  function InputF(): Fmt { FQuad(FQuad(FU32(), FU32(), FU32(), FU32()), FU32(), FU32(), FU32()) }
  function InputV(c: PlayerCommand): Val {
    VQuad(VQuad(N32(c.seqNo), N32(c.dtSeconds), N32(c.moveX), N32(c.moveY)), N32(c.yaw), N32(c.pitch), N32(c.buttons))
  }

  function TimingF(): Fmt {
    FQuad(FPair(FU64(), FU32()), FPair(FU64(), FU32()), FEnum(LAST_TEAM), FPair(FU16(), FU8()))
  }
  function TimingV(c: PlayerCommand): Val {
    VQuad(VPair(N64(c.viewedServerTimeUs), N32(c.interpDelayMs)),
          VPair(N64(c.controlViewedServerTimeUs), N32(c.controlInterpDelayMs)),
          N8(c.requestedTeam),
          VPair(N16(c.reportedLatencyMs), N8(c.reportedLossPct)))
  }

  function CommandF(): Fmt { FPair(InputF(), TimingF()) }
  function CommandV(c: PlayerCommand): Val { VPair(InputV(c), TimingV(c)) }

  function CommandEventF(): Fmt {
    FQuad(FPair(FEnum(LAST_TRACK), FEnum(LAST_STAGE)), FPair(FU16(), FU32()), FPair(FU32(), FU64()), CommandF())
  }
  function CommandEventV(e: ServerCommandEvent): Val {
    VQuad(VPair(N8(e.track), N8(e.stage)),
          VPair(N16(e.peerId), NI(e.actorId)),
          VPair(N32(e.serverTick), N64(e.serverTimeUs)),
          CommandV(e.command))
  }

  function RuntimeEventF(): Fmt {
    FQuad(FPair(FEnum(LAST_RUNTIME_EVENT), FU32()), FPair(FU64(), FU16()), FPair(FStr, FU32()), FBool)
  }
  function RuntimeEventV(e: RuntimeEvent): Val {
    VQuad(VPair(N8(e.kind), N32(e.serverTick)),
          VPair(N64(e.serverTimeUs), N16(e.peerId)),
          VPair(VStr(e.key), N32(e.value)),
          VBool(e.applied))
  }

  function SnapshotEventF(): Fmt {
    FPair(FQuad(FEnum(LAST_SNAPSHOT_EVENT), FU32(), FU32(), Vec3F()), FPair(Vec3F(), FBool))
  }
  function SnapshotEventV(e: SnapshotEvent): Val {
    VPair(VQuad(N8(e.kind), NI(e.sourcePlayerId), NI(e.targetEntityId), Vec3V(e.origin)),
          VPair(Vec3V(e.direction), VBool(e.hit)))
  }

  function CombatEventF(): Fmt { FPair(FU32(), FPair(FU64(), SnapshotEventF())) }
  function CombatEventV(e: CombatEvent): Val {
    VPair(N32(e.serverTick), VPair(N64(e.serverTimeUs), SnapshotEventV(e.event)))
  }

  function KeyframeF(): Fmt {
    FPair(FQuad(FEnum(LAST_TRACK), FU32(), FU64(), WorldF()), FList(MAX_WORLD_PLAYERS, PlayerF()))
  }
  function KeyframeV(k: WorldKeyframe): Val {
    VPair(VQuad(N8(k.track), N32(k.serverTick), N64(k.serverTimeUs), WorldV(k.worldState)),
          ListOf(PlayerV, k.controlPlayers))
  }

  function StampF(): Fmt { FQuad(FPair(FEnum(LAST_PERCEPTION_EVENT), FU32()), FPair(FU64(), FU32()), FU64(), FU32()) }
  function StampV(e: PerceptionEvent): Val {
    VQuad(VPair(N8(e.kind), N32(e.clientFrame)), VPair(N64(e.clientTimeUs), N32(e.serverTick)),
          N64(e.serverTimeUs), N32(e.commandSeq))
  }

  function ViewF(): Fmt { FQuad(FU32(), FU32(), FU32(), FPair(FBool, FBool)) }
  function ViewV(e: PerceptionEvent): Val {
    VQuad(N32(e.correctionMagnitude), N32(e.yaw), N32(e.pitch),
          VPair(VBool(e.predictionEnabled), VBool(e.interpolationEnabled)))
  }

  function PerceptionF(): Fmt { FPair(StampF(), ViewF()) }
  function PerceptionV(e: PerceptionEvent): Val { VPair(StampV(e), ViewV(e)) }

  function TrackF(): Fmt { FPair(FU16(), FPair(FStr, FList(MAX_CLIENT_EVENTS, PerceptionF()))) }
  function TrackV(t: PerceptionTrack): Val {
    VPair(N16(t.peerId), VPair(VStr(t.playerName), ListOf(PerceptionV, t.events)))
  }

  function PolicyF(): Fmt { FQuad(FU32(), FU32(), FU32(), FEnum(LAST_SHOT_MODE)) }
  function PolicyV(p: ShotPolicy): Val {
    VQuad(N32(p.maxRewindMs), N32(p.respawnDelaySeconds), N32(p.spawnProtectionSeconds), N8(p.shotEvaluationMode))
  }

  /** The policy fields are present from the current version on. */
  function PolicyForF(version: U32): Fmt {
    if version >= FORMAT_VERSION then PolicyF() else FUnit
  }
  function PolicyForV(version: U32, p: ShotPolicy): Val {
    if version >= FORMAT_VERSION then PolicyV(p) else VUnit
  }

  predicate Supported(version: U32) {
    version == FORMAT_VERSION || version == LEGACY_FORMAT_VERSION
  }

  function VersionF(version: U32): Fmt { FNum(4, version, version) }

  function IdentityF(): Fmt { FQuad(FU16(), FU32(), FU32(), FQuad(FU16(), FU16(), FU32(), FU64())) }
  function IdentityV(h: Header): Val {
    VQuad(N16(h.protocolVersion), NI(h.levelSlot), N32(h.levelHash),
          VQuad(N16(h.tickRateHz), N16(h.snapshotRateHz), N32(h.simConfigVersion), N64(h.recordedAtUnixSeconds)))
  }

  function BackF(version: U32): Fmt {
    FQuad(FPair(FU64(), FU64()), PolicyForF(version), FPair(FBool, FBool), FPair(FStr, FStr))
  }
  function BackV(h: Header): Val {
    VQuad(VPair(N64(h.startedServerTimeUs), N64(h.durationUs)),
          PolicyForV(h.formatVersion, h.policy),
          VPair(VBool(h.hasControlLane), VBool(h.hasClientPerceptionTracks)),
          VPair(VStr(h.title), VStr(h.sourceLabel)))
  }

  function HeaderF(version: U32): Fmt { FPair(VersionF(version), FPair(IdentityF(), BackF(version))) }
  function HeaderV(h: Header): Val { VPair(N32(h.formatVersion), VPair(IdentityV(h), BackV(h))) }

  function StartF(version: U32): Fmt { FQuad(FNum(4, MAGIC, MAGIC), HeaderF(version), SimConfigF(), WorldF()) }
  function StartV(h: Header, c: SimConfig<F32>, w: WorldState): Val {
    VQuad(N32(MAGIC), HeaderV(h), SimConfigV(c), WorldV(w))
  }

  function EventsF(): Fmt {
    FQuad(FPair(FList(MAX_COMMANDS, CommandEventF()), FList(MAX_EVENTS, RuntimeEventF())),
          FList(MAX_EVENTS, CombatEventF()),
          FList(MAX_KEYFRAMES, KeyframeF()),
          FList(MAX_CLIENTS, TrackF()))
  }
  function EventsV(d: Demo): Val {
    VQuad(VPair(ListOf(CommandEventV, d.commandEvents), ListOf(RuntimeEventV, d.runtimeEvents)),
          ListOf(CombatEventV, d.combatEvents),
          ListOf(KeyframeV, d.keyframes),
          ListOf(TrackV, d.clientTracks))
  }

  function DemoF(version: U32): Fmt { FPair(StartF(version), EventsF()) }
  function DemoV(d: Demo): Val { VPair(StartV(d.header, d.simConfig, d.worldState), EventsV(d)) }

  // ---------------------------------------------------------------------------------------------
  // What it is to load a demo

  /** The bytes a demo is saved as. */
  function Image(d: Demo): Bytes {
    Encode(DemoV(d))
  }

  /** A demo of the legacy version has the default policy. */
  predicate WellVersioned(h: Header) {
    Supported(h.formatVersion) && (h.formatVersion == LEGACY_FORMAT_VERSION ==> h.policy == DEFAULT_POLICY)
  }

  /** Loading `b` gives `d`: it is read up to the last byte, in the layout of its own version. */
  predicate Loads(b: Bytes, d: Demo) {
    WellVersioned(d.header) && Dec(DemoF(d.header.formatVersion), b, 0) == Item(DemoV(d), |b|)
  }
}
