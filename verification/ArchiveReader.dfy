/**
 The archive reader.  Every method reads one record from where the reader stands: it computes `Dec` of the
 record's format, both when it accepts and when it rejects.
 */
module ArchiveReader {
  import opened Words
  import opened Format
  import opened FormatLaws
  import opened Codec
  import opened SimTypes
  import opened ReplayDemo

  method ReadVec3(r: ByteReader) returns (ok: bool, value: Vec3<F32>)
    requires r.Valid()
    modifies r`offset
    ensures r.Took(Vec3F(), old(r.offset), ok, Vec3V(value))
  {
    hide LEAt;
    value := *;
    var x, y, z;
    ok, x := r.ReadF32();
    if !ok { return; }
    ok, y := r.ReadF32();
    if !ok { return; }
    ok, z := r.ReadF32();
    if !ok { return; }
    value := Vec3(x, y, z);
  }

  method ReadPlayerBody(r: ByteReader)
    returns (ok: bool, playerId: I32, position: Vec3<F32>, velocity: Vec3<F32>, yaw: F32)
    requires r.Valid()
    modifies r`offset
    ensures r.Took(PlayerBodyF(), old(r.offset), ok, PlayerBodyV(playerId, position, velocity, yaw))
  {
    hide LEAt, Vec3F, Vec3V, Bits;
    playerId, position, velocity, yaw := *, *, *, *;
    ok, playerId := r.ReadI32();
    if !ok { return; }
    ok, position := ReadVec3(r);
    if !ok { return; }
    ok, velocity := ReadVec3(r);
    if !ok { return; }
    ok, yaw := r.ReadF32();
  }

  method ReadPlayerState(r: ByteReader) returns (ok: bool, player: PlayerState<F32>)
    requires r.Valid()
    modifies r`offset
    ensures r.Took(PlayerF(), old(r.offset), ok, PlayerV(player))
  {
    hide LEAt, PlayerBodyF, PlayerBodyV, Bits;
    player := *;
    var playerId, position, velocity, yaw, pitch, health, maxHealth, weaponCooldownRemaining, jumpsUsed,
        grounded;
    ok, playerId, position, velocity, yaw := ReadPlayerBody(r);
    if !ok { return; }
    ok, pitch := r.ReadF32();
    if !ok { return; }
    ok, health := r.ReadF32();
    if !ok { return; }
    ok, maxHealth := r.ReadF32();
    if !ok { return; }
    ok, weaponCooldownRemaining := r.ReadF32();
    if !ok { return; }
    ok, jumpsUsed := r.ReadI32();
    if !ok { return; }
    ok, grounded := r.ReadBool();
    if !ok { return; }
    player := PlayerState(
      playerId, position, velocity, yaw, pitch, health, maxHealth, weaponCooldownRemaining, jumpsUsed, grounded);
  }

  method ReadRemoteActorState(r: ByteReader) returns (ok: bool, actor: RemoteActorState<F32>)
    requires r.Valid()
    modifies r`offset
    ensures r.Took(ActorF(), old(r.offset), ok, ActorV(actor))
  {
    hide LEAt, Vec3F, Vec3V;
    actor := *;
    var entityId, position, velocity, yaw, pitch, health, radius, alive;
    ok, entityId := r.ReadI32();
    if !ok { return; }
    ok, position := ReadVec3(r);
    if !ok { return; }
    ok, velocity := ReadVec3(r);
    if !ok { return; }
    ok, yaw := r.ReadF32();
    if !ok { return; }
    ok, pitch := r.ReadF32();
    if !ok { return; }
    ok, health := r.ReadF32();
    if !ok { return; }
    ok, radius := r.ReadF32();
    if !ok { return; }
    ok, alive := r.ReadBool();
    if !ok { return; }
    actor := RemoteActorState(entityId, position, velocity, yaw, pitch, health, radius, alive);
  }

  method ReadControlBinding(r: ByteReader) returns (ok: bool, binding: ControlBinding)
    requires r.Valid()
    modifies r`offset
    ensures r.Took(BindingF(), old(r.offset), ok, BindingV(binding))
  {
    hide LEAt;
    binding := *;
    var kind, actorId;
    ok, kind := r.ReadEnum(LAST_BINDING);
    if !ok { return; }
    ok, actorId := r.ReadI32();
    if !ok { return; }
    binding := ControlBinding(kind, actorId);
  }

  /** Records of many fields are filled in two steps, from these blanks. */
  const NO_ENTRY := RosterEntry(0, 0, 0, 0, ControlBinding(0, 0), false, 0, 0, 0, false, false, false, 0, 0, 0, 0, [])
  const NO_CONFIG: SimConfig<F32> := SimConfig(0, 0, 0, 0, 0, 0, 0, 0, 0, 0, 0, 0, 0, 0, 0, 0)
  const NO_COMMAND := PlayerCommand(0, 0, 0, 0, 0, 0, 0, 0, 0, 0, 0, 0, 0, 0)
  const NO_EVENT := PerceptionEvent(0, 0, 0, 0, 0, 0, 0, 0, 0, false, false)

  method ReadRosterRole(r: ByteReader, blank: RosterEntry) returns (ok: bool, entry: RosterEntry)
    requires r.Valid()
    modifies r`offset
    ensures r.Took(RosterRoleF(), old(r.offset), ok, RosterRoleV(entry))
    ensures RosterStatusV(entry) == RosterStatusV(blank)
  {
    hide LEAt, BindingF, BindingV;
    entry := blank;
    var actorId, team, presence, participation, control, isBot, kills, deaths;
    ok, actorId := r.ReadI32();
    if !ok { return; }
    ok, team := r.ReadEnum(LAST_TEAM);
    if !ok { return; }
    ok, presence := r.ReadEnum(LAST_PRESENCE);
    if !ok { return; }
    ok, participation := r.ReadEnum(LAST_PARTICIPATION);
    if !ok { return; }
    ok, control := ReadControlBinding(r);
    if !ok { return; }
    ok, isBot := r.ReadBool();
    if !ok { return; }
    ok, kills := r.ReadU16();
    if !ok { return; }
    ok, deaths := r.ReadU16();
    if !ok { return; }
    entry := blank.(
      actorId := actorId, team := team, sessionPresence := presence, participation := participation,
      control := control, isBot := isBot, kills := kills, deaths := deaths);
  }

  method ReadRosterStatus(r: ByteReader, partial: RosterEntry) returns (ok: bool, entry: RosterEntry)
    requires r.Valid()
    modifies r`offset
    ensures r.Took(RosterStatusF(), old(r.offset), ok, RosterStatusV(entry))
    ensures RosterRoleV(entry) == RosterRoleV(partial)
  {
    hide LEAt;
    entry := partial;
    var assists, alive, interpolation, prediction, strategy, window, latency, loss;
    ok, assists := r.ReadU16();
    if !ok { return; }
    ok, alive := r.ReadBool();
    if !ok { return; }
    ok, interpolation := r.ReadBool();
    if !ok { return; }
    ok, prediction := r.ReadBool();
    if !ok { return; }
    ok, strategy := r.ReadEnum(LAST_STRATEGY);
    if !ok { return; }
    ok, window := r.ReadU32();
    if !ok { return; }
    ok, latency := r.ReadU16();
    if !ok { return; }
    ok, loss := r.ReadU8();
    if !ok { return; }
    entry := partial.(
      assists := assists, alive := alive, interpolationEnabled := interpolation, predictionEnabled := prediction,
      reconciliationStrategy := strategy, smoothCorrectionWindowMs := window, latencyMs := latency,
      lossPct := loss);
  }

  method ReadRosterEntry(r: ByteReader) returns (ok: bool, entry: RosterEntry)
    requires r.Valid()
    modifies r`offset
    ensures r.Took(RosterF(), old(r.offset), ok, RosterV(entry))
  {
    hide LEAt, RosterRoleF, RosterStatusF;
    entry := *;
    var role, status, displayName;
    ok, role := ReadRosterRole(r, NO_ENTRY);
    if !ok { return; }
    ok, status := ReadRosterStatus(r, role);
    if !ok { return; }
    ok, displayName := r.ReadString();
    if !ok { return; }
    entry := status.(displayName := displayName);
  }

  method ReadCollisionBox(r: ByteReader) returns (ok: bool, box: CollisionBox)
    requires r.Valid()
    modifies r`offset
    ensures r.Took(BoxF(), old(r.offset), ok, BoxV(box))
  {
    hide LEAt, Vec3F, Vec3V;
    box := *;
    var center, halfSize;
    ok, center := ReadVec3(r);
    if !ok { return; }
    ok, halfSize := ReadVec3(r);
    if !ok { return; }
    box := CollisionBox(center, halfSize);
  }

  method ReadCollisionBoxes(r: ByteReader) returns (ok: bool, boxes: seq<CollisionBox>)
    requires r.Valid()
    modifies r`offset
    ensures r.Took(FList(MAX_COLLISION_BOXES, BoxF()), old(r.offset), ok, ListOf(BoxV, boxes))
  {
    hide BoxF, BoxV;
    boxes := [];
    var count;
    ok, count := r.ReadCount(MAX_COLLISION_BOXES);
    if ok {
      ok, boxes := ReadCollisionBoxItems(r, count);
    }
  }

  method ReadCollisionBoxItems(r: ByteReader, count: U32) returns (ok: bool, boxes: seq<CollisionBox>)
    requires r.Valid()
    modifies r`offset
    ensures ok ==> |boxes| == count
    ensures r.TookTimes(BoxF(), old(r.offset), count, ok, Body(BoxV, boxes))
  {
    hide BoxF, BoxV;
    ok, boxes := true, [];
    while |boxes| < count
      invariant ok && Reading(BoxF(), r.bytes, old(r.offset), count, ok, |boxes|, Body(BoxV, boxes), r.offset)
    {
      ghost var at := r.offset;
      var box;
      ok, box := ReadCollisionBox(r);
      ReadingStep(BoxF(), r.bytes, old(r.offset), count, |boxes|, Body(BoxV, boxes), at, ok, BoxV(box), r.offset);
      if !ok { return; }
      BodySnoc<CollisionBox>(BoxV, boxes, box);
      boxes := boxes + [box];
    }
  }

  method ReadEnvironment(r: ByteReader) returns (ok: bool, environment: MovementEnvironment)
    requires r.Valid()
    modifies r`offset
    ensures r.Took(EnvironmentF(), old(r.offset), ok, EnvironmentV(environment))
  {
    hide LEAt, BoxF, BoxV;
    environment := *;
    var arenaHalfSize, boxes;
    ok, arenaHalfSize := r.ReadF32();
    if !ok { return; }
    ok, boxes := ReadCollisionBoxes(r);
    if !ok { return; }
    environment := MovementEnvironment(arenaHalfSize, boxes);
  }

  method ReadMovementConfig(r: ByteReader, blank: SimConfig<F32>) returns (ok: bool, config: SimConfig<F32>)
    requires r.Valid()
    modifies r`offset
    ensures r.Took(MovementF(), old(r.offset), ok, MovementV(config))
    ensures CombatV(config) == CombatV(blank)
  {
    hide LEAt;
    config := blank;
    var playerEyeHeight, playerMoveSpeed, playerJumpVelocity, playerGravity, playerMaxJumps, playerRadius,
        playerCollisionHeight, minPitch;
    ok, playerEyeHeight := r.ReadF32();
    if !ok { return; }
    ok, playerMoveSpeed := r.ReadF32();
    if !ok { return; }
    ok, playerJumpVelocity := r.ReadF32();
    if !ok { return; }
    ok, playerGravity := r.ReadF32();
    if !ok { return; }
    ok, playerMaxJumps := r.ReadI32();
    if !ok { return; }
    ok, playerRadius := r.ReadF32();
    if !ok { return; }
    ok, playerCollisionHeight := r.ReadF32();
    if !ok { return; }
    ok, minPitch := r.ReadF32();
    if !ok { return; }
    config := blank.(
      playerEyeHeight := playerEyeHeight, playerMoveSpeed := playerMoveSpeed,
      playerJumpVelocity := playerJumpVelocity, playerGravity := playerGravity, playerMaxJumps := playerMaxJumps,
      playerRadius := playerRadius, playerCollisionHeight := playerCollisionHeight, minPitch := minPitch);
  }

  method ReadCombatConfig(r: ByteReader, partial: SimConfig<F32>) returns (ok: bool, config: SimConfig<F32>)
    requires r.Valid()
    modifies r`offset
    ensures r.Took(CombatF(), old(r.offset), ok, CombatV(config))
    ensures MovementV(config) == MovementV(partial)
  {
    hide LEAt;
    config := partial;
    var maxPitch, playerMaxHealth, enemyRadius, enemyMaxHealth, weaponCooldownSeconds, weaponDamage, weaponRange,
        arenaHalfSize;
    ok, maxPitch := r.ReadF32();
    if !ok { return; }
    ok, playerMaxHealth := r.ReadF32();
    if !ok { return; }
    ok, enemyRadius := r.ReadF32();
    if !ok { return; }
    ok, enemyMaxHealth := r.ReadF32();
    if !ok { return; }
    ok, weaponCooldownSeconds := r.ReadF32();
    if !ok { return; }
    ok, weaponDamage := r.ReadF32();
    if !ok { return; }
    ok, weaponRange := r.ReadF32();
    if !ok { return; }
    ok, arenaHalfSize := r.ReadF32();
    if !ok { return; }
    config := partial.(
      maxPitch := maxPitch, playerMaxHealth := playerMaxHealth, enemyRadius := enemyRadius,
      enemyMaxHealth := enemyMaxHealth, weaponCooldownSeconds := weaponCooldownSeconds,
      weaponDamage := weaponDamage, weaponRange := weaponRange, arenaHalfSize := arenaHalfSize);
  }

  method ReadSimConfig(r: ByteReader) returns (ok: bool, config: SimConfig<F32>)
    requires r.Valid()
    modifies r`offset
    ensures r.Took(SimConfigF(), old(r.offset), ok, SimConfigV(config))
  {
    hide LEAt, MovementF, CombatF, MovementV, CombatV;
    config := *;
    var movement, full;
    ok, movement := ReadMovementConfig(r, NO_CONFIG);
    if !ok { return; }
    ok, full := ReadCombatConfig(r, movement);
    if !ok { return; }
    config := full;
  }

  method ReadPlayers(r: ByteReader) returns (ok: bool, players: seq<PlayerState<F32>>)
    requires r.Valid()
    modifies r`offset
    ensures r.Took(FList(MAX_WORLD_PLAYERS, PlayerF()), old(r.offset), ok, ListOf(PlayerV, players))
  {
    hide PlayerF, PlayerV;
    players := [];
    var count;
    ok, count := r.ReadCount(MAX_WORLD_PLAYERS);
    if ok {
      ok, players := ReadPlayerItems(r, count);
    }
  }

  method ReadPlayerItems(r: ByteReader, count: U32) returns (ok: bool, players: seq<PlayerState<F32>>)
    requires r.Valid()
    modifies r`offset
    ensures ok ==> |players| == count
    ensures r.TookTimes(PlayerF(), old(r.offset), count, ok, Body(PlayerV, players))
  {
    hide PlayerF, PlayerV;
    ok, players := true, [];
    while |players| < count
      invariant ok && Reading(PlayerF(), r.bytes, old(r.offset), count, ok, |players|, Body(PlayerV, players), r.offset)
    {
      ghost var at := r.offset;
      var player;
      ok, player := ReadPlayerState(r);
      ReadingStep(PlayerF(), r.bytes, old(r.offset), count, |players|, Body(PlayerV, players), at, ok,
          PlayerV(player), r.offset);
      if !ok { return; }
      BodySnoc<PlayerState<F32>>(PlayerV, players, player);
      players := players + [player];
    }
  }

  method ReadEnemies(r: ByteReader) returns (ok: bool, enemies: seq<RemoteActorState<F32>>)
    requires r.Valid()
    modifies r`offset
    ensures r.Took(FList(MAX_WORLD_ENEMIES, ActorF()), old(r.offset), ok, ListOf(ActorV, enemies))
  {
    hide ActorF, ActorV;
    enemies := [];
    var count;
    ok, count := r.ReadCount(MAX_WORLD_ENEMIES);
    if ok {
      ok, enemies := ReadEnemyItems(r, count);
    }
  }

  method ReadEnemyItems(r: ByteReader, count: U32) returns (ok: bool, enemies: seq<RemoteActorState<F32>>)
    requires r.Valid()
    modifies r`offset
    ensures ok ==> |enemies| == count
    ensures r.TookTimes(ActorF(), old(r.offset), count, ok, Body(ActorV, enemies))
  {
    hide ActorF, ActorV;
    ok, enemies := true, [];
    while |enemies| < count
      invariant ok && Reading(ActorF(), r.bytes, old(r.offset), count, ok, |enemies|, Body(ActorV, enemies), r.offset)
    {
      ghost var at := r.offset;
      var enemy;
      ok, enemy := ReadRemoteActorState(r);
      ReadingStep(ActorF(), r.bytes, old(r.offset), count, |enemies|, Body(ActorV, enemies), at, ok, ActorV(enemy),
          r.offset);
      if !ok { return; }
      BodySnoc<RemoteActorState<F32>>(ActorV, enemies, enemy);
      enemies := enemies + [enemy];
    }
  }

  method ReadRoster(r: ByteReader) returns (ok: bool, roster: seq<RosterEntry>)
    requires r.Valid()
    modifies r`offset
    ensures r.Took(FList(MAX_WORLD_ROSTER, RosterF()), old(r.offset), ok, ListOf(RosterV, roster))
  {
    hide RosterF, RosterV;
    roster := [];
    var count;
    ok, count := r.ReadCount(MAX_WORLD_ROSTER);
    if ok {
      ok, roster := ReadRosterItems(r, count);
    }
  }

  method ReadRosterItems(r: ByteReader, count: U32) returns (ok: bool, roster: seq<RosterEntry>)
    requires r.Valid()
    modifies r`offset
    ensures ok ==> |roster| == count
    ensures r.TookTimes(RosterF(), old(r.offset), count, ok, Body(RosterV, roster))
  {
    hide RosterF, RosterV;
    ok, roster := true, [];
    while |roster| < count
      invariant ok && Reading(RosterF(), r.bytes, old(r.offset), count, ok, |roster|, Body(RosterV, roster), r.offset)
    {
      ghost var at := r.offset;
      var entry;
      ok, entry := ReadRosterEntry(r);
      ReadingStep(RosterF(), r.bytes, old(r.offset), count, |roster|, Body(RosterV, roster), at, ok, RosterV(entry),
          r.offset);
      if !ok { return; }
      BodySnoc<RosterEntry>(RosterV, roster, entry);
      roster := roster + [entry];
    }
  }

  method ReadSpawns(r: ByteReader) returns (ok: bool, spawns: seq<Vec3<F32>>)
    requires r.Valid()
    modifies r`offset
    ensures r.Took(FList(MAX_WORLD_SPAWNS, Vec3F()), old(r.offset), ok, ListOf(Vec3V, spawns))
  {
    hide Vec3F, Vec3V;
    spawns := [];
    var count;
    ok, count := r.ReadCount(MAX_WORLD_SPAWNS);
    if ok {
      ok, spawns := ReadSpawnItems(r, count);
    }
  }

  method ReadSpawnItems(r: ByteReader, count: U32) returns (ok: bool, spawns: seq<Vec3<F32>>)
    requires r.Valid()
    modifies r`offset
    ensures ok ==> |spawns| == count
    ensures r.TookTimes(Vec3F(), old(r.offset), count, ok, Body(Vec3V, spawns))
  {
    hide Vec3F, Vec3V;
    ok, spawns := true, [];
    while |spawns| < count
      invariant ok && Reading(Vec3F(), r.bytes, old(r.offset), count, ok, |spawns|, Body(Vec3V, spawns), r.offset)
    {
      ghost var at := r.offset;
      var spawn;
      ok, spawn := ReadVec3(r);
      ReadingStep(Vec3F(), r.bytes, old(r.offset), count, |spawns|, Body(Vec3V, spawns), at, ok, Vec3V(spawn),
          r.offset);
      if !ok { return; }
      BodySnoc<Vec3<F32>>(Vec3V, spawns, spawn);
      spawns := spawns + [spawn];
    }
  }

  method ReadWaypointIndices(r: ByteReader) returns (ok: bool, indices: seq<U64>)
    requires r.Valid()
    modifies r`offset
    ensures r.Took(FList(MAX_WORLD_SPAWNS, FU32()), old(r.offset), ok, ListOf(IndexV, indices))
  {
    indices := [];
    var count;
    ok, count := r.ReadCount(MAX_WORLD_SPAWNS);
    if ok {
      ok, indices := ReadWaypointItems(r, count);
    }
  }

  method ReadWaypointItems(r: ByteReader, count: U32) returns (ok: bool, indices: seq<U64>)
    requires r.Valid()
    modifies r`offset
    ensures ok ==> |indices| == count
    ensures r.TookTimes(FU32(), old(r.offset), count, ok, Body(IndexV, indices))
  {
    ok, indices := true, [];
    while |indices| < count
      invariant ok && Reading(FU32(), r.bytes, old(r.offset), count, ok, |indices|, Body(IndexV, indices), r.offset)
    {
      ghost var at := r.offset;
      var index;
      ok, index := r.ReadU32();
      ReadingStep(FU32(), r.bytes, old(r.offset), count, |indices|, Body(IndexV, indices), at, ok, IndexV(index),
          r.offset);
      if !ok { return; }
      BodySnoc<U64>(IndexV, indices, index);
      indices := indices + [index];
    }
  }

  method ReadRespawnTimers(r: ByteReader) returns (ok: bool, timers: seq<F32>)
    requires r.Valid()
    modifies r`offset
    ensures r.Took(FList(MAX_WORLD_SPAWNS, FU32()), old(r.offset), ok, ListOf(N32, timers))
  {
    timers := [];
    var count;
    ok, count := r.ReadCount(MAX_WORLD_SPAWNS);
    if ok {
      ok, timers := ReadTimerItems(r, count);
    }
  }

  method ReadTimerItems(r: ByteReader, count: U32) returns (ok: bool, timers: seq<F32>)
    requires r.Valid()
    modifies r`offset
    ensures ok ==> |timers| == count
    ensures r.TookTimes(FU32(), old(r.offset), count, ok, Body(N32, timers))
  {
    ok, timers := true, [];
    while |timers| < count
      invariant ok && Reading(FU32(), r.bytes, old(r.offset), count, ok, |timers|, Body(N32, timers), r.offset)
    {
      ghost var at := r.offset;
      var timer;
      ok, timer := r.ReadF32();
      ReadingStep(FU32(), r.bytes, old(r.offset), count, |timers|, Body(N32, timers), at, ok, N32(timer), r.offset);
      if !ok { return; }
      BodySnoc<F32>(N32, timers, timer);
      timers := timers + [timer];
    }
  }

  method ReadCadence(r: ByteReader) returns (ok: bool, cadence: TimingCadence)
    requires r.Valid()
    modifies r`offset
    ensures r.Took(CadenceF(), old(r.offset), ok, CadenceV(cadence))
  {
    hide LEAt;
    cadence := *;
    var tick, snapshot, command;
    ok, tick := r.ReadU16();
    if !ok { return; }
    ok, snapshot := r.ReadU16();
    if !ok { return; }
    ok, command := r.ReadU16();
    if !ok { return; }
    cadence := TimingCadence(tick, snapshot, command);
  }

  method ReadTime(r: ByteReader) returns (ok: bool, time: AuthoritativeTime)
    requires r.Valid()
    modifies r`offset
    ensures r.Took(TimeF(), old(r.offset), ok, TimeV(time))
  {
    hide LEAt;
    time := *;
    var tick, serverTimeUs, viewed;
    ok, tick := r.ReadU32();
    if !ok { return; }
    ok, serverTimeUs := r.ReadU64();
    if !ok { return; }
    ok, viewed := r.ReadU64();
    if !ok { return; }
    time := AuthoritativeTime(tick, serverTimeUs, viewed);
  }

  method ReadSession(r: ByteReader) returns (ok: bool, scores: TeamScores, metadata: SessionMetadata)
    requires r.Valid()
    modifies r`offset
    ensures r.Took(SessionF(), old(r.offset), ok, SessionV(scores, metadata))
  {
    hide LEAt;
    scores, metadata := *, *;
    var attackers, defenders, sessionId, levelSlot, levelHash, maxHumans, humans, bots;
    ok, attackers := r.ReadU16();
    if !ok { return; }
    ok, defenders := r.ReadU16();
    if !ok { return; }
    ok, sessionId := r.ReadU32();
    if !ok { return; }
    ok, levelSlot := r.ReadI32();
    if !ok { return; }
    ok, levelHash := r.ReadU32();
    if !ok { return; }
    ok, maxHumans := r.ReadU16();
    if !ok { return; }
    ok, humans := r.ReadU16();
    if !ok { return; }
    ok, bots := r.ReadU16();
    if !ok { return; }
    scores := TeamScores(attackers, defenders);
    metadata := SessionMetadata(sessionId, levelSlot, levelHash, maxHumans, humans, bots);
  }

  method ReadWorldFront(r: ByteReader)
    returns (ok: bool, environment: MovementEnvironment, cadence: TimingCadence, time: AuthoritativeTime,
             players: seq<PlayerState<F32>>)
    requires r.Valid()
    modifies r`offset
    ensures r.Took(WorldFrontF(), old(r.offset), ok, WorldFrontV(environment, cadence, time, players))
  {
    hide LEAt, EnvironmentF, EnvironmentV, CadenceF, CadenceV, TimeF, TimeV, PlayerF, PlayerV, ListOf;
    environment, cadence, time, players := *, *, *, *;
    ok, environment := ReadEnvironment(r);
    if !ok { return; }
    ok, cadence := ReadCadence(r);
    if !ok { return; }
    ok, time := ReadTime(r);
    if !ok { return; }
    ok, players := ReadPlayers(r);
  }

  method ReadWorldState(r: ByteReader) returns (ok: bool, world: WorldState)
    requires r.Valid()
    modifies r`offset
    ensures r.Took(WorldF(), old(r.offset), ok, WorldV(world))
  {
    hide LEAt, WorldFrontF, WorldFrontV, ActorF, ActorV, RosterF, RosterV, SessionF, SessionV, Vec3F, Vec3V, ListOf;
    world := *;
    var environment, cadence, time, players, enemies, roster, scores, metadata, playerSpawns, enemySpawns, indices,
        timers;
    ok, environment, cadence, time, players := ReadWorldFront(r);
    if !ok { return; }
    ok, enemies := ReadEnemies(r);
    if !ok { return; }
    ok, roster := ReadRoster(r);
    if !ok { return; }
    ok, scores, metadata := ReadSession(r);
    if !ok { return; }
    ok, playerSpawns := ReadSpawns(r);
    if !ok { return; }
    ok, enemySpawns := ReadSpawns(r);
    if !ok { return; }
    ok, indices := ReadWaypointIndices(r);
    if !ok { return; }
    ok, timers := ReadRespawnTimers(r);
    if !ok { return; }
    world := WorldState(
      environment, cadence, time, players, enemies, roster, scores, metadata, playerSpawns, enemySpawns, indices,
      timers);
  }

  method ReadCommandInput(r: ByteReader, blank: PlayerCommand) returns (ok: bool, command: PlayerCommand)
    requires r.Valid()
    modifies r`offset
    ensures r.Took(InputF(), old(r.offset), ok, InputV(command))
    ensures TimingV(command) == TimingV(blank)
  {
    hide LEAt;
    command := blank;
    var seqNo, dtSeconds, moveX, moveY, yaw, pitch, buttons;
    ok, seqNo := r.ReadU32();
    if !ok { return; }
    ok, dtSeconds := r.ReadF32();
    if !ok { return; }
    ok, moveX := r.ReadF32();
    if !ok { return; }
    ok, moveY := r.ReadF32();
    if !ok { return; }
    ok, yaw := r.ReadF32();
    if !ok { return; }
    ok, pitch := r.ReadF32();
    if !ok { return; }
    ok, buttons := r.ReadU32();
    if !ok { return; }
    command := blank.(
      seqNo := seqNo, dtSeconds := dtSeconds, moveX := moveX, moveY := moveY, yaw := yaw, pitch := pitch,
      buttons := buttons);
  }

  method ReadCommandTiming(r: ByteReader, partial: PlayerCommand) returns (ok: bool, command: PlayerCommand)
    requires r.Valid()
    modifies r`offset
    ensures r.Took(TimingF(), old(r.offset), ok, TimingV(command))
    ensures InputV(command) == InputV(partial)
  {
    hide LEAt;
    command := partial;
    var viewed, delay, controlViewed, controlDelay, team, latency, loss;
    ok, viewed := r.ReadU64();
    if !ok { return; }
    ok, delay := r.ReadU32();
    if !ok { return; }
    ok, controlViewed := r.ReadU64();
    if !ok { return; }
    ok, controlDelay := r.ReadU32();
    if !ok { return; }
    ok, team := r.ReadEnum(LAST_TEAM);
    if !ok { return; }
    ok, latency := r.ReadU16();
    if !ok { return; }
    ok, loss := r.ReadU8();
    if !ok { return; }
    command := partial.(
      viewedServerTimeUs := viewed, interpDelayMs := delay, controlViewedServerTimeUs := controlViewed,
      controlInterpDelayMs := controlDelay, requestedTeam := team, reportedLatencyMs := latency,
      reportedLossPct := loss);
  }

  method ReadCommand(r: ByteReader) returns (ok: bool, command: PlayerCommand)
    requires r.Valid()
    modifies r`offset
    ensures r.Took(CommandF(), old(r.offset), ok, CommandV(command))
  {
    hide LEAt, InputF, TimingF, InputV, TimingV;
    command := *;
    var input, full;
    ok, input := ReadCommandInput(r, NO_COMMAND);
    if !ok { return; }
    ok, full := ReadCommandTiming(r, input);
    if !ok { return; }
    command := full;
  }

  method ReadCommandEvent(r: ByteReader) returns (ok: bool, event: ServerCommandEvent)
    requires r.Valid()
    modifies r`offset
    ensures r.Took(CommandEventF(), old(r.offset), ok, CommandEventV(event))
  {
    hide LEAt, CommandF, CommandV;
    event := *;
    var track, stage, peerId, actorId, tick, time, command;
    ok, track := r.ReadEnum(LAST_TRACK);
    if !ok { return; }
    ok, stage := r.ReadEnum(LAST_STAGE);
    if !ok { return; }
    ok, peerId := r.ReadU16();
    if !ok { return; }
    ok, actorId := r.ReadI32();
    if !ok { return; }
    ok, tick := r.ReadU32();
    if !ok { return; }
    ok, time := r.ReadU64();
    if !ok { return; }
    ok, command := ReadCommand(r);
    if !ok { return; }
    event := ServerCommandEvent(track, stage, peerId, actorId, tick, time, command);
  }

  method ReadCommandEvents(r: ByteReader) returns (ok: bool, events: seq<ServerCommandEvent>)
    requires r.Valid()
    modifies r`offset
    ensures r.Took(FList(MAX_COMMANDS, CommandEventF()), old(r.offset), ok, ListOf(CommandEventV, events))
  {
    hide CommandEventF, CommandEventV;
    events := [];
    var count;
    ok, count := r.ReadCount(MAX_COMMANDS);
    if ok {
      ok, events := ReadCommandEventItems(r, count);
    }
  }

  method ReadCommandEventItems(r: ByteReader, count: U32) returns (ok: bool, events: seq<ServerCommandEvent>)
    requires r.Valid()
    modifies r`offset
    ensures ok ==> |events| == count
    ensures r.TookTimes(CommandEventF(), old(r.offset), count, ok, Body(CommandEventV, events))
  {
    hide CommandEventF, CommandEventV;
    ok, events := true, [];
    while |events| < count
      invariant ok && Reading(CommandEventF(), r.bytes, old(r.offset), count, ok, |events|, Body(CommandEventV,
          events), r.offset)
    {
      ghost var at := r.offset;
      var event;
      ok, event := ReadCommandEvent(r);
      ReadingStep(CommandEventF(), r.bytes, old(r.offset), count, |events|, Body(CommandEventV, events), at, ok,
          CommandEventV(event), r.offset);
      if !ok { return; }
      BodySnoc<ServerCommandEvent>(CommandEventV, events, event);
      events := events + [event];
    }
  }

  method ReadRuntimeEvent(r: ByteReader) returns (ok: bool, event: RuntimeEvent)
    requires r.Valid()
    modifies r`offset
    ensures r.Took(RuntimeEventF(), old(r.offset), ok, RuntimeEventV(event))
  {
    hide LEAt;
    event := *;
    var kind, tick, time, peerId, key, value, applied;
    ok, kind := r.ReadEnum(LAST_RUNTIME_EVENT);
    if !ok { return; }
    ok, tick := r.ReadU32();
    if !ok { return; }
    ok, time := r.ReadU64();
    if !ok { return; }
    ok, peerId := r.ReadU16();
    if !ok { return; }
    ok, key := r.ReadString();
    if !ok { return; }
    ok, value := r.ReadF32();
    if !ok { return; }
    ok, applied := r.ReadBool();
    if !ok { return; }
    event := RuntimeEvent(kind, tick, time, peerId, key, value, applied);
  }

  method ReadRuntimeEvents(r: ByteReader) returns (ok: bool, events: seq<RuntimeEvent>)
    requires r.Valid()
    modifies r`offset
    ensures r.Took(FList(MAX_EVENTS, RuntimeEventF()), old(r.offset), ok, ListOf(RuntimeEventV, events))
  {
    hide RuntimeEventF, RuntimeEventV;
    events := [];
    var count;
    ok, count := r.ReadCount(MAX_EVENTS);
    if ok {
      ok, events := ReadRuntimeEventItems(r, count);
    }
  }

  method ReadRuntimeEventItems(r: ByteReader, count: U32) returns (ok: bool, events: seq<RuntimeEvent>)
    requires r.Valid()
    modifies r`offset
    ensures ok ==> |events| == count
    ensures r.TookTimes(RuntimeEventF(), old(r.offset), count, ok, Body(RuntimeEventV, events))
  {
    hide RuntimeEventF, RuntimeEventV;
    ok, events := true, [];
    while |events| < count
      invariant ok && Reading(RuntimeEventF(), r.bytes, old(r.offset), count, ok, |events|, Body(RuntimeEventV,
          events), r.offset)
    {
      ghost var at := r.offset;
      var event;
      ok, event := ReadRuntimeEvent(r);
      ReadingStep(RuntimeEventF(), r.bytes, old(r.offset), count, |events|, Body(RuntimeEventV, events), at, ok,
          RuntimeEventV(event), r.offset);
      if !ok { return; }
      BodySnoc<RuntimeEvent>(RuntimeEventV, events, event);
      events := events + [event];
    }
  }

  method ReadSnapshotEvent(r: ByteReader) returns (ok: bool, event: SnapshotEvent)
    requires r.Valid()
    modifies r`offset
    ensures r.Took(SnapshotEventF(), old(r.offset), ok, SnapshotEventV(event))
  {
    hide LEAt, Vec3F, Vec3V;
    event := *;
    var kind, source, target, origin, direction, hit;
    ok, kind := r.ReadEnum(LAST_SNAPSHOT_EVENT);
    if !ok { return; }
    ok, source := r.ReadI32();
    if !ok { return; }
    ok, target := r.ReadI32();
    if !ok { return; }
    ok, origin := ReadVec3(r);
    if !ok { return; }
    ok, direction := ReadVec3(r);
    if !ok { return; }
    ok, hit := r.ReadBool();
    if !ok { return; }
    event := SnapshotEvent(kind, source, target, origin, direction, hit);
  }

  method ReadCombatEvent(r: ByteReader) returns (ok: bool, event: CombatEvent)
    requires r.Valid()
    modifies r`offset
    ensures r.Took(CombatEventF(), old(r.offset), ok, CombatEventV(event))
  {
    hide LEAt, SnapshotEventF, SnapshotEventV;
    event := *;
    var tick, time, inner;
    ok, tick := r.ReadU32();
    if !ok { return; }
    ok, time := r.ReadU64();
    if !ok { return; }
    ok, inner := ReadSnapshotEvent(r);
    if !ok { return; }
    event := CombatEvent(tick, time, inner);
  }

  method ReadCombatEvents(r: ByteReader) returns (ok: bool, events: seq<CombatEvent>)
    requires r.Valid()
    modifies r`offset
    ensures r.Took(FList(MAX_EVENTS, CombatEventF()), old(r.offset), ok, ListOf(CombatEventV, events))
  {
    hide CombatEventF, CombatEventV;
    events := [];
    var count;
    ok, count := r.ReadCount(MAX_EVENTS);
    if ok {
      ok, events := ReadCombatEventItems(r, count);
    }
  }

  method ReadCombatEventItems(r: ByteReader, count: U32) returns (ok: bool, events: seq<CombatEvent>)
    requires r.Valid()
    modifies r`offset
    ensures ok ==> |events| == count
    ensures r.TookTimes(CombatEventF(), old(r.offset), count, ok, Body(CombatEventV, events))
  {
    hide CombatEventF, CombatEventV;
    ok, events := true, [];
    while |events| < count
      invariant ok && Reading(CombatEventF(), r.bytes, old(r.offset), count, ok, |events|, Body(CombatEventV,
          events), r.offset)
    {
      ghost var at := r.offset;
      var event;
      ok, event := ReadCombatEvent(r);
      ReadingStep(CombatEventF(), r.bytes, old(r.offset), count, |events|, Body(CombatEventV, events), at, ok,
          CombatEventV(event), r.offset);
      if !ok { return; }
      BodySnoc<CombatEvent>(CombatEventV, events, event);
      events := events + [event];
    }
  }

  method ReadKeyframe(r: ByteReader) returns (ok: bool, keyframe: WorldKeyframe)
    requires r.Valid()
    modifies r`offset
    ensures r.Took(KeyframeF(), old(r.offset), ok, KeyframeV(keyframe))
  {
    hide LEAt, WorldF, WorldV, PlayerF, PlayerV;
    keyframe := *;
    var track, tick, time, world, players;
    ok, track := r.ReadEnum(LAST_TRACK);
    if !ok { return; }
    ok, tick := r.ReadU32();
    if !ok { return; }
    ok, time := r.ReadU64();
    if !ok { return; }
    ok, world := ReadWorldState(r);
    if !ok { return; }
    ok, players := ReadPlayers(r);
    if !ok { return; }
    keyframe := WorldKeyframe(track, tick, time, world, players);
  }

  method ReadKeyframes(r: ByteReader) returns (ok: bool, keyframes: seq<WorldKeyframe>)
    requires r.Valid()
    modifies r`offset
    ensures r.Took(FList(MAX_KEYFRAMES, KeyframeF()), old(r.offset), ok, ListOf(KeyframeV, keyframes))
  {
    hide KeyframeF, KeyframeV;
    keyframes := [];
    var count;
    ok, count := r.ReadCount(MAX_KEYFRAMES);
    if ok {
      ok, keyframes := ReadKeyframeItems(r, count);
    }
  }

  method ReadKeyframeItems(r: ByteReader, count: U32) returns (ok: bool, keyframes: seq<WorldKeyframe>)
    requires r.Valid()
    modifies r`offset
    ensures ok ==> |keyframes| == count
    ensures r.TookTimes(KeyframeF(), old(r.offset), count, ok, Body(KeyframeV, keyframes))
  {
    hide KeyframeF, KeyframeV;
    ok, keyframes := true, [];
    while |keyframes| < count
      invariant ok && Reading(KeyframeF(), r.bytes, old(r.offset), count, ok, |keyframes|, Body(KeyframeV,
          keyframes), r.offset)
    {
      ghost var at := r.offset;
      var keyframe;
      ok, keyframe := ReadKeyframe(r);
      ReadingStep(KeyframeF(), r.bytes, old(r.offset), count, |keyframes|, Body(KeyframeV, keyframes), at, ok,
          KeyframeV(keyframe), r.offset);
      if !ok { return; }
      BodySnoc<WorldKeyframe>(KeyframeV, keyframes, keyframe);
      keyframes := keyframes + [keyframe];
    }
  }

  method ReadPerceptionStamp(r: ByteReader, blank: PerceptionEvent) returns (ok: bool, event: PerceptionEvent)
    requires r.Valid()
    modifies r`offset
    ensures r.Took(StampF(), old(r.offset), ok, StampV(event))
    ensures ViewV(event) == ViewV(blank)
  {
    hide LEAt;
    event := blank;
    var kind, frame, clientTime, tick, serverTime, commandSeq;
    ok, kind := r.ReadEnum(LAST_PERCEPTION_EVENT);
    if !ok { return; }
    ok, frame := r.ReadU32();
    if !ok { return; }
    ok, clientTime := r.ReadU64();
    if !ok { return; }
    ok, tick := r.ReadU32();
    if !ok { return; }
    ok, serverTime := r.ReadU64();
    if !ok { return; }
    ok, commandSeq := r.ReadU32();
    if !ok { return; }
    event := blank.(
      kind := kind, clientFrame := frame, clientTimeUs := clientTime, serverTick := tick,
      serverTimeUs := serverTime, commandSeq := commandSeq);
  }

  method ReadPerceptionView(r: ByteReader, partial: PerceptionEvent) returns (ok: bool, event: PerceptionEvent)
    requires r.Valid()
    modifies r`offset
    ensures r.Took(ViewF(), old(r.offset), ok, ViewV(event))
    ensures StampV(event) == StampV(partial)
  {
    hide LEAt;
    event := partial;
    var magnitude, yaw, pitch, prediction, interpolation;
    ok, magnitude := r.ReadF32();
    if !ok { return; }
    ok, yaw := r.ReadF32();
    if !ok { return; }
    ok, pitch := r.ReadF32();
    if !ok { return; }
    ok, prediction := r.ReadBool();
    if !ok { return; }
    ok, interpolation := r.ReadBool();
    if !ok { return; }
    event := partial.(
      correctionMagnitude := magnitude, yaw := yaw, pitch := pitch, predictionEnabled := prediction,
      interpolationEnabled := interpolation);
  }

  method ReadPerceptionEvent(r: ByteReader) returns (ok: bool, event: PerceptionEvent)
    requires r.Valid()
    modifies r`offset
    ensures r.Took(PerceptionF(), old(r.offset), ok, PerceptionV(event))
  {
    hide LEAt, StampF, ViewF, StampV, ViewV;
    event := *;
    var stamp, full;
    ok, stamp := ReadPerceptionStamp(r, NO_EVENT);
    if !ok { return; }
    ok, full := ReadPerceptionView(r, stamp);
    if !ok { return; }
    event := full;
  }

  method ReadPerceptionEvents(r: ByteReader) returns (ok: bool, events: seq<PerceptionEvent>)
    requires r.Valid()
    modifies r`offset
    ensures r.Took(FList(MAX_CLIENT_EVENTS, PerceptionF()), old(r.offset), ok, ListOf(PerceptionV, events))
  {
    hide PerceptionF, PerceptionV;
    events := [];
    var count;
    ok, count := r.ReadCount(MAX_CLIENT_EVENTS);
    if ok {
      ok, events := ReadPerceptionItems(r, count);
    }
  }

  method ReadPerceptionItems(r: ByteReader, count: U32) returns (ok: bool, events: seq<PerceptionEvent>)
    requires r.Valid()
    modifies r`offset
    ensures ok ==> |events| == count
    ensures r.TookTimes(PerceptionF(), old(r.offset), count, ok, Body(PerceptionV, events))
  {
    hide PerceptionF, PerceptionV;
    ok, events := true, [];
    while |events| < count
      invariant ok && Reading(PerceptionF(), r.bytes, old(r.offset), count, ok, |events|, Body(PerceptionV, events),
          r.offset)
    {
      ghost var at := r.offset;
      var event;
      ok, event := ReadPerceptionEvent(r);
      ReadingStep(PerceptionF(), r.bytes, old(r.offset), count, |events|, Body(PerceptionV, events), at, ok,
          PerceptionV(event), r.offset);
      if !ok { return; }
      BodySnoc<PerceptionEvent>(PerceptionV, events, event);
      events := events + [event];
    }
  }

  method ReadTrack(r: ByteReader) returns (ok: bool, track: PerceptionTrack)
    requires r.Valid()
    modifies r`offset
    ensures r.Took(TrackF(), old(r.offset), ok, TrackV(track))
  {
    hide LEAt, PerceptionF, PerceptionV;
    track := *;
    var peerId, playerName, events;
    ok, peerId := r.ReadU16();
    if !ok { return; }
    ok, playerName := r.ReadString();
    if !ok { return; }
    ok, events := ReadPerceptionEvents(r);
    if !ok { return; }
    track := PerceptionTrack(peerId, playerName, events);
  }

  method ReadTracks(r: ByteReader) returns (ok: bool, tracks: seq<PerceptionTrack>)
    requires r.Valid()
    modifies r`offset
    ensures r.Took(FList(MAX_CLIENTS, TrackF()), old(r.offset), ok, ListOf(TrackV, tracks))
  {
    hide TrackF, TrackV;
    tracks := [];
    var count;
    ok, count := r.ReadCount(MAX_CLIENTS);
    if ok {
      ok, tracks := ReadTrackItems(r, count);
    }
  }

  method ReadTrackItems(r: ByteReader, count: U32) returns (ok: bool, tracks: seq<PerceptionTrack>)
    requires r.Valid()
    modifies r`offset
    ensures ok ==> |tracks| == count
    ensures r.TookTimes(TrackF(), old(r.offset), count, ok, Body(TrackV, tracks))
  {
    hide TrackF, TrackV;
    ok, tracks := true, [];
    while |tracks| < count
      invariant ok && Reading(TrackF(), r.bytes, old(r.offset), count, ok, |tracks|, Body(TrackV, tracks), r.offset)
    {
      ghost var at := r.offset;
      var track;
      ok, track := ReadTrack(r);
      ReadingStep(TrackF(), r.bytes, old(r.offset), count, |tracks|, Body(TrackV, tracks), at, ok, TrackV(track),
          r.offset);
      if !ok { return; }
      BodySnoc<PerceptionTrack>(TrackV, tracks, track);
      tracks := tracks + [track];
    }
  }

  method ReadPolicy(r: ByteReader) returns (ok: bool, policy: ShotPolicy)
    requires r.Valid()
    modifies r`offset
    ensures r.Took(PolicyF(), old(r.offset), ok, PolicyV(policy))
  {
    hide LEAt;
    policy := *;
    var maxRewindMs, respawn, protection, mode;
    ok, maxRewindMs := r.ReadU32();
    if !ok { return; }
    ok, respawn := r.ReadF32();
    if !ok { return; }
    ok, protection := r.ReadF32();
    if !ok { return; }
    ok, mode := r.ReadEnum(LAST_SHOT_MODE);
    if !ok { return; }
    policy := ShotPolicy(maxRewindMs, respawn, protection, mode);
  }

  const NO_HEADER :=
    Header(FORMAT_VERSION, 0, 0, 0, 0, 0, 0, 0, 0, 0, DEFAULT_POLICY, false, false, [], [])

  method ReadHeaderIdentity(r: ByteReader, blank: Header) returns (ok: bool, header: Header)
    requires r.Valid()
    modifies r`offset
    ensures r.Took(IdentityF(), old(r.offset), ok, IdentityV(header))
    ensures header.formatVersion == blank.formatVersion && header.policy == blank.policy
  {
    hide LEAt;
    header := blank;
    var protocol, slot, hash, tick, snapshot, simVersion, recorded;
    ok, protocol := r.ReadU16();
    if !ok { return; }
    ok, slot := r.ReadI32();
    if !ok { return; }
    ok, hash := r.ReadU32();
    if !ok { return; }
    ok, tick := r.ReadU16();
    if !ok { return; }
    ok, snapshot := r.ReadU16();
    if !ok { return; }
    ok, simVersion := r.ReadU32();
    if !ok { return; }
    ok, recorded := r.ReadU64();
    if !ok { return; }
    header := blank.(
      protocolVersion := protocol, levelSlot := slot, levelHash := hash, tickRateHz := tick,
      snapshotRateHz := snapshot, simConfigVersion := simVersion, recordedAtUnixSeconds := recorded);
  }

  /** The policy fields are read only from the current version on; an older header has the default ones. */
  method ReadPolicyFor(r: ByteReader, version: U32) returns (ok: bool, policy: ShotPolicy)
    requires r.Valid()
    modifies r`offset
    ensures r.Took(PolicyForF(version), old(r.offset), ok, PolicyForV(version, policy))
    ensures version < FORMAT_VERSION ==> policy == DEFAULT_POLICY
  {
    ok, policy := true, DEFAULT_POLICY;
    if version >= FORMAT_VERSION {
      ok, policy := ReadPolicy(r);
    }
  }

  method ReadHeaderBack(r: ByteReader, front: Header) returns (ok: bool, header: Header)
    requires r.Valid() && Supported(front.formatVersion) && front.policy == DEFAULT_POLICY
    modifies r`offset
    ensures r.Took(BackF(front.formatVersion), old(r.offset), ok, BackV(header))
    ensures header.formatVersion == front.formatVersion && IdentityV(header) == IdentityV(front)
    ensures WellVersioned(header)
  {
    hide LEAt, PolicyForF, PolicyForV, IdentityF;
    header := front;
    var started, duration, policy, hasControl, hasTracks, titles;
    ok, started := r.ReadU64();
    if !ok { return; }
    ok, duration := r.ReadU64();
    if !ok { return; }
    ok, policy := ReadPolicyFor(r, front.formatVersion);
    if !ok { return; }
    ok, hasControl := r.ReadBool();
    if !ok { return; }
    ok, hasTracks := r.ReadBool();
    if !ok { return; }
    ok, titles := ReadTitles(r);
    if !ok { return; }
    header := front.(
      startedServerTimeUs := started, durationUs := duration, policy := policy, hasControlLane := hasControl,
      hasClientPerceptionTracks := hasTracks, title := titles.0, sourceLabel := titles.1);
  }

  method ReadTitles(r: ByteReader) returns (ok: bool, titles: (Bytes, Bytes))
    requires r.Valid()
    modifies r`offset
    ensures r.Took(FPair(FStr, FStr), old(r.offset), ok, VPair(VStr(titles.0), VStr(titles.1)))
  {
    hide LEAt;
    titles := ([], []);
    var title, source;
    ok, title := r.ReadString();
    if !ok { return; }
    ok, source := r.ReadString();
    titles := (title, source);
  }

  /** The outcome of reading something whose format depends on the version it states. */
  ghost predicate TookVersioned(f: U32 -> Fmt, b: Bytes, from: nat, ok: bool, version: U32, v: Val, offset: nat) {
    && offset <= |b|
    && from <= |b|
    && if ok then Supported(version) && Dec(f(version), b, from) == Item(v, offset)
       else forall w: U32 | Supported(w) :: Dec(f(w), b, from).NoItem?
  }

  /** The version that is stated is the only one a header is read in. */
  lemma OneVersion(b: Bytes, o: nat, v: U32)
    requires o <= |b| && Dec(FU32(), b, o) == Item(VNum(4, v), o + 4)
    ensures Dec(VersionF(v), b, o) == Item(VNum(4, v), o + 4)
    ensures forall w: U32 | w != v :: Dec(HeaderF(w), b, o).NoItem?
  {
    forall w: U32 | w != v ensures Dec(HeaderF(w), b, o).NoItem? {
      assert Dec(VersionF(w), b, o).NoItem?;
    }
  }

  method ReadHeader(r: ByteReader) returns (ok: bool, header: Header)
    requires r.Valid()
    modifies r`offset
    ensures r.Valid()
    ensures TookVersioned(HeaderF, r.bytes, old(r.offset), ok, header.formatVersion, HeaderV(header), r.offset)
    ensures ok ==> WellVersioned(header)
    ensures ok ==> forall v: U32 | v != header.formatVersion :: Dec(HeaderF(v), r.bytes, old(r.offset)).NoItem?
  {
    hide LEAt, IdentityF, IdentityV, BackF, BackV;
    header := NO_HEADER;
    var version;
    ok, version := r.ReadU32();
    if !ok { return; }
    OneVersion(r.bytes, old(r.offset), version);
    if !Supported(version) {
      return false, header;
    }
    header := header.(formatVersion := version);
    ok, header := ReadHeaderIdentity(r, header);
    if !ok { return; }
    ok, header := ReadHeaderBack(r, header);
  }

  method ReadStart(r: ByteReader)
    returns (ok: bool, header: Header, config: SimConfig<F32>, world: WorldState)
    requires r.Valid()
    modifies r`offset
    ensures r.Valid()
    ensures TookVersioned(StartF, r.bytes, old(r.offset), ok, header.formatVersion, StartV(header, config, world),
        r.offset)
    ensures ok ==> WellVersioned(header)
    ensures ok ==> forall v: U32 | v != header.formatVersion :: Dec(StartF(v), r.bytes, old(r.offset)).NoItem?
  {
    hide LEAt, SimConfigF, SimConfigV, WorldF, WorldV, HeaderF, HeaderV;
    header, config, world := NO_HEADER, NO_CONFIG, *;
    var magic;
    ok, magic := r.ReadU32();
    if !ok || magic != MAGIC {
      return false, header, config, world;
    }
    assert Dec(FNum(4, MAGIC, MAGIC), r.bytes, old(r.offset)) == Item(VNum(4, MAGIC), r.offset);
    ok, header := ReadHeader(r);
    if !ok { return; }
    ok, config := ReadSimConfig(r);
    if !ok { return; }
    ok, world := ReadWorldState(r);
  }

  /** Why a load was refused; the source's messages for a count and for an element of a list are one here. */
  datatype Load =
    | Loaded(demo: Demo)
    | InvalidHeader
    | InvalidCommands
    | InvalidRuntimeEvents
    | InvalidCombatEvents
    | InvalidKeyframes
    | InvalidClientTracks
    | TrailingBytes

  method ReadEvents(r: ByteReader, start: Demo) returns (load: Load)
    requires r.Valid()
    modifies r`offset
    ensures r.Valid()
    ensures !load.TrailingBytes? && !load.InvalidHeader?
    ensures load.Loaded? ==>
              load.demo.header == start.header && load.demo.simConfig == start.simConfig
              && load.demo.worldState == start.worldState
    ensures if load.Loaded? then Dec(EventsF(), r.bytes, old(r.offset)) == Item(EventsV(load.demo), r.offset)
            else Dec(EventsF(), r.bytes, old(r.offset)).NoItem?
  {
    hide LEAt, CommandEventF, CommandEventV, RuntimeEventF, RuntimeEventV;
    hide CombatEventF, CombatEventV, KeyframeF, KeyframeV, TrackF, TrackV;
    var ok, commands, runtime, combat, keyframes, tracks;
    ok, commands := ReadCommandEvents(r);
    if !ok {
      return InvalidCommands;
    }
    ok, runtime := ReadRuntimeEvents(r);
    if !ok {
      return InvalidRuntimeEvents;
    }
    ok, combat := ReadCombatEvents(r);
    if !ok {
      return InvalidCombatEvents;
    }
    ok, keyframes := ReadKeyframes(r);
    if !ok {
      return InvalidKeyframes;
    }
    ok, tracks := ReadTracks(r);
    if !ok {
      return InvalidClientTracks;
    }
    load := Loaded(start.(
      commandEvents := commands, runtimeEvents := runtime, combatEvents := combat, keyframes := keyframes,
      clientTracks := tracks));
  }

  /** A demo of one of the supported versions stands at the front of the buffer and ends before its end. */
  ghost predicate EndsEarly(b: Bytes) {
    exists v: U32 :: Supported(v) && Dec(DemoF(v), b, 0).Item? && Dec(DemoF(v), b, 0).end < |b|
  }

  /** Loads a demo of either version. */
  method ReadBytes(bytes: Bytes) returns (load: Load)
    ensures load.Loaded? ==> Loads(bytes, load.demo)
    ensures !load.Loaded? ==> forall d :: !Loads(bytes, d)
    ensures load.TrailingBytes? <==> EndsEarly(bytes)
  {
    hide LEAt, StartF, StartV, EventsF, EventsV;
    var r := new ByteReader(bytes);
    var ok, header, config, world := ReadStart(r);
    forall v: U32 ensures Dec(DemoF(v), bytes, 0) == PairOf(StartF(v), EventsF(), bytes) {
      DecPair(StartF(v), EventsF(), bytes, 0);
    }
    if !ok {
      return InvalidHeader;
    }
    load := ReadEvents(r, Demo(header, config, world, [], [], [], [], []));
    if load.Loaded? && !r.AtEnd() {
      assert Dec(DemoF(header.formatVersion), bytes, 0).end < |bytes|;
      load := TrailingBytes;
    }
  }

  function PairOf(f0: Fmt, f1: Fmt, b: Bytes): Item {
    var r0 := Dec(f0, b, 0);
    if r0.NoItem? || Dec(f1, b, r0.end).NoItem? then NoItem
    else Item(VPair(r0.v, Dec(f1, b, r0.end).v), Dec(f1, b, r0.end).end)
  }
}
