/**
 The archive writer.  Every method appends the layout of its record to the writer's buffer; the methods that
 write strings throw exactly when a string does not fit its 16-bit length.
 */
module ArchiveWriter {
  import opened Words
  import opened Format
  import opened FormatLaws
  import opened Codec
  import opened SimTypes
  import opened ReplayDemo

  method WriteVec3(w: ByteWriter, value: Vec3<F32>)
    modifies w
    ensures w.bytes == Emit(Vec3V(value), old(w.bytes))
  {
    w.WriteF32(value.x);
    w.WriteF32(value.y);
    w.WriteF32(value.z);
  }

  method WritePlayerState(w: ByteWriter, player: PlayerState<F32>)
    modifies w
    ensures w.bytes == Emit(PlayerV(player), old(w.bytes))
  {
    w.WriteI32(player.playerId);
    WriteVec3(w, player.position);
    WriteVec3(w, player.velocity);
    w.WriteF32(player.yaw);
    w.WriteF32(player.pitch);
    w.WriteF32(player.health);
    w.WriteF32(player.maxHealth);
    w.WriteF32(player.weaponCooldownRemaining);
    w.WriteI32(player.jumpsUsed);
    w.WriteBool(player.grounded);
  }

  method WriteRemoteActorState(w: ByteWriter, actor: RemoteActorState<F32>)
    modifies w
    ensures w.bytes == Emit(ActorV(actor), old(w.bytes))
  {
    w.WriteI32(actor.entityId);
    WriteVec3(w, actor.position);
    WriteVec3(w, actor.velocity);
    w.WriteF32(actor.yaw);
    w.WriteF32(actor.pitch);
    w.WriteF32(actor.health);
    w.WriteF32(actor.radius);
    w.WriteBool(actor.alive);
  }

  method WriteControlBinding(w: ByteWriter, binding: ControlBinding)
    modifies w
    ensures w.bytes == Emit(BindingV(binding), old(w.bytes))
  {
    w.WriteU8(binding.kind);
    w.WriteI32(binding.actorId);
  }

  method WriteRosterRole(w: ByteWriter, entry: RosterEntry)
    modifies w
    ensures w.bytes == Emit(RosterRoleV(entry), old(w.bytes))
  {
    w.WriteI32(entry.actorId);
    w.WriteU8(entry.team);
    w.WriteU8(entry.sessionPresence);
    w.WriteU8(entry.participation);
    WriteControlBinding(w, entry.control);
    w.WriteBool(entry.isBot);
    w.WriteU16(entry.kills);
    w.WriteU16(entry.deaths);
  }

  method WriteRosterStatus(w: ByteWriter, entry: RosterEntry)
    modifies w
    ensures w.bytes == Emit(RosterStatusV(entry), old(w.bytes))
  {
    w.WriteU16(entry.assists);
    w.WriteBool(entry.alive);
    w.WriteBool(entry.interpolationEnabled);
    w.WriteBool(entry.predictionEnabled);
    w.WriteU8(entry.reconciliationStrategy);
    w.WriteU32(entry.smoothCorrectionWindowMs);
    w.WriteU16(entry.latencyMs);
    w.WriteU8(entry.lossPct);
  }

  method WriteRosterEntry(w: ByteWriter, entry: RosterEntry) returns (r: Outcome)
    modifies w
    ensures r.Done? <==> Fits(entry.displayName)
    ensures r.Done? ==> w.bytes == Emit(RosterV(entry), old(w.bytes))
  {
    WriteRosterRole(w, entry);
    WriteRosterStatus(w, entry);
    :- w.WriteString(entry.displayName);
    r := Done;
  }

  method WriteCollisionBox(w: ByteWriter, box: CollisionBox)
    modifies w
    ensures w.bytes == Emit(BoxV(box), old(w.bytes))
  {
    WriteVec3(w, box.center);
    WriteVec3(w, box.halfSize);
  }

  method WriteCollisionBoxes(w: ByteWriter, boxes: seq<CollisionBox>)
    modifies w
    ensures w.bytes == Emit(ListOf(BoxV, boxes), old(w.bytes))
  {
    w.WriteTruncated(|boxes|);
    ghost var start := w.bytes;
    for i := 0 to |boxes|
      invariant w.bytes == Emit(Body(BoxV, boxes[..i]), start)
    {
      BodyUpTo(BoxV, boxes, i);
      WriteCollisionBox(w, boxes[i]);
    }
    assert boxes[..|boxes|] == boxes;
  }

  method WriteEnvironment(w: ByteWriter, environment: MovementEnvironment)
    modifies w
    ensures w.bytes == Emit(EnvironmentV(environment), old(w.bytes))
  {
    w.WriteF32(environment.arenaHalfSize);
    WriteCollisionBoxes(w, environment.collisionBoxes);
  }

  method WriteMovementConfig(w: ByteWriter, config: SimConfig<F32>)
    modifies w
    ensures w.bytes == Emit(MovementV(config), old(w.bytes))
  {
    w.WriteF32(config.playerEyeHeight);
    w.WriteF32(config.playerMoveSpeed);
    w.WriteF32(config.playerJumpVelocity);
    w.WriteF32(config.playerGravity);
    w.WriteI32(config.playerMaxJumps);
    w.WriteF32(config.playerRadius);
    w.WriteF32(config.playerCollisionHeight);
    w.WriteF32(config.minPitch);
  }

  method WriteCombatConfig(w: ByteWriter, config: SimConfig<F32>)
    modifies w
    ensures w.bytes == Emit(CombatV(config), old(w.bytes))
  {
    w.WriteF32(config.maxPitch);
    w.WriteF32(config.playerMaxHealth);
    w.WriteF32(config.enemyRadius);
    w.WriteF32(config.enemyMaxHealth);
    w.WriteF32(config.weaponCooldownSeconds);
    w.WriteF32(config.weaponDamage);
    w.WriteF32(config.weaponRange);
    w.WriteF32(config.arenaHalfSize);
  }

  method WriteSimConfig(w: ByteWriter, config: SimConfig<F32>)
    modifies w
    ensures w.bytes == Emit(SimConfigV(config), old(w.bytes))
  {
    WriteMovementConfig(w, config);
    WriteCombatConfig(w, config);
  }

  method WritePlayers(w: ByteWriter, players: seq<PlayerState<F32>>)
    modifies w
    ensures w.bytes == Emit(ListOf(PlayerV, players), old(w.bytes))
  {
    w.WriteTruncated(|players|);
    ghost var start := w.bytes;
    for i := 0 to |players|
      invariant w.bytes == Emit(Body(PlayerV, players[..i]), start)
    {
      BodyUpTo(PlayerV, players, i);
      WritePlayerState(w, players[i]);
    }
    assert players[..|players|] == players;
  }

  method WriteEnemies(w: ByteWriter, enemies: seq<RemoteActorState<F32>>)
    modifies w
    ensures w.bytes == Emit(ListOf(ActorV, enemies), old(w.bytes))
  {
    w.WriteTruncated(|enemies|);
    ghost var start := w.bytes;
    for i := 0 to |enemies|
      invariant w.bytes == Emit(Body(ActorV, enemies[..i]), start)
    {
      BodyUpTo(ActorV, enemies, i);
      WriteRemoteActorState(w, enemies[i]);
    }
    assert enemies[..|enemies|] == enemies;
  }

  method WriteRoster(w: ByteWriter, roster: seq<RosterEntry>) returns (r: Outcome)
    modifies w
    ensures r.Done? <==> RosterFits(roster)
    ensures r.Done? ==> w.bytes == Emit(ListOf(RosterV, roster), old(w.bytes))
  {
    w.WriteTruncated(|roster|);
    ghost var start := w.bytes;
    for i := 0 to |roster|
      invariant RosterFits(roster[..i])
      invariant w.bytes == Emit(Body(RosterV, roster[..i]), start)
    {
      BodyUpTo(RosterV, roster, i);
      assert !Fits(roster[i].displayName) ==> !RosterFits(roster);
      :- WriteRosterEntry(w, roster[i]);
    }
    assert roster[..|roster|] == roster;
    r := Done;
  }

  method WriteSpawns(w: ByteWriter, spawns: seq<Vec3<F32>>)
    modifies w
    ensures w.bytes == Emit(ListOf(Vec3V, spawns), old(w.bytes))
  {
    w.WriteTruncated(|spawns|);
    ghost var start := w.bytes;
    for i := 0 to |spawns|
      invariant w.bytes == Emit(Body(Vec3V, spawns[..i]), start)
    {
      BodyUpTo(Vec3V, spawns, i);
      WriteVec3(w, spawns[i]);
    }
    assert spawns[..|spawns|] == spawns;
  }

  method WriteWaypointIndices(w: ByteWriter, indices: seq<U64>)
    modifies w
    ensures w.bytes == Emit(ListOf(IndexV, indices), old(w.bytes))
  {
    w.WriteTruncated(|indices|);
    ghost var start := w.bytes;
    for i := 0 to |indices|
      invariant w.bytes == Emit(Body(IndexV, indices[..i]), start)
    {
      BodyUpTo(IndexV, indices, i);
      w.WriteTruncated(indices[i]);
    }
    assert indices[..|indices|] == indices;
  }

  method WriteRespawnTimers(w: ByteWriter, timers: seq<F32>)
    modifies w
    ensures w.bytes == Emit(ListOf(N32, timers), old(w.bytes))
  {
    w.WriteTruncated(|timers|);
    ghost var start := w.bytes;
    for i := 0 to |timers|
      invariant w.bytes == Emit(Body(N32, timers[..i]), start)
    {
      BodyUpTo(N32, timers, i);
      w.WriteF32(timers[i]);
    }
    assert timers[..|timers|] == timers;
  }

  method WriteCadence(w: ByteWriter, cadence: TimingCadence)
    modifies w
    ensures w.bytes == Emit(CadenceV(cadence), old(w.bytes))
  {
    w.WriteU16(cadence.authoritativeTickHz);
    w.WriteU16(cadence.snapshotCadenceHz);
    w.WriteU16(cadence.commandCadenceHz);
  }

  method WriteTime(w: ByteWriter, time: AuthoritativeTime)
    modifies w
    ensures w.bytes == Emit(TimeV(time), old(w.bytes))
  {
    w.WriteU32(time.serverTick);
    w.WriteU64(time.serverTimeUs);
    w.WriteU64(time.viewedServerTimeUs);
  }

  method WriteSession(w: ByteWriter, scores: TeamScores, metadata: SessionMetadata)
    modifies w
    ensures w.bytes == Emit(SessionV(scores, metadata), old(w.bytes))
  {
    w.WriteU16(scores.attackers);
    w.WriteU16(scores.defenders);
    w.WriteU32(metadata.sessionId);
    w.WriteI32(metadata.levelSlot);
    w.WriteU32(metadata.levelHash);
    w.WriteU16(metadata.maxHumanPlayers);
    w.WriteU16(metadata.connectedHumanPlayers);
    w.WriteU16(metadata.connectedBotPlayers);
  }

  method WriteWorldState(w: ByteWriter, world: WorldState) returns (r: Outcome)
    modifies w
    ensures r.Done? <==> RosterFits(world.roster)
    ensures r.Done? ==> w.bytes == Emit(WorldV(world), old(w.bytes))
  {
    WriteEnvironment(w, world.environment);
    WriteCadence(w, world.cadence);
    WriteTime(w, world.authoritativeTime);
    WritePlayers(w, world.players);
    WriteEnemies(w, world.enemies);
    :- WriteRoster(w, world.roster);
    WriteSession(w, world.teamScores, world.sessionMetadata);
    WriteSpawns(w, world.playerSpawns);
    WriteSpawns(w, world.enemySpawns);
    WriteWaypointIndices(w, world.enemyWaypointIndices);
    WriteRespawnTimers(w, world.enemyRespawnTimers);
    r := Done;
  }

  method WriteCommandInput(w: ByteWriter, command: PlayerCommand)
    modifies w
    ensures w.bytes == Emit(InputV(command), old(w.bytes))
  {
    w.WriteU32(command.seqNo);
    w.WriteF32(command.dtSeconds);
    w.WriteF32(command.moveX);
    w.WriteF32(command.moveY);
    w.WriteF32(command.yaw);
    w.WriteF32(command.pitch);
    w.WriteU32(command.buttons);
  }

  method WriteCommandTiming(w: ByteWriter, command: PlayerCommand)
    modifies w
    ensures w.bytes == Emit(TimingV(command), old(w.bytes))
  {
    w.WriteU64(command.viewedServerTimeUs);
    w.WriteU32(command.interpDelayMs);
    w.WriteU64(command.controlViewedServerTimeUs);
    w.WriteU32(command.controlInterpDelayMs);
    w.WriteU8(command.requestedTeam);
    w.WriteU16(command.reportedLatencyMs);
    w.WriteU8(command.reportedLossPct);
  }

  method WriteCommand(w: ByteWriter, command: PlayerCommand)
    modifies w
    ensures w.bytes == Emit(CommandV(command), old(w.bytes))
  {
    WriteCommandInput(w, command);
    WriteCommandTiming(w, command);
  }

  method WriteCommandEvent(w: ByteWriter, event: ServerCommandEvent)
    modifies w
    ensures w.bytes == Emit(CommandEventV(event), old(w.bytes))
  {
    w.WriteU8(event.track);
    w.WriteU8(event.stage);
    w.WriteU16(event.peerId);
    w.WriteI32(event.actorId);
    w.WriteU32(event.serverTick);
    w.WriteU64(event.serverTimeUs);
    WriteCommand(w, event.command);
  }

  method WriteCommandEvents(w: ByteWriter, events: seq<ServerCommandEvent>)
    modifies w
    ensures w.bytes == Emit(ListOf(CommandEventV, events), old(w.bytes))
  {
    w.WriteTruncated(|events|);
    ghost var start := w.bytes;
    for i := 0 to |events|
      invariant w.bytes == Emit(Body(CommandEventV, events[..i]), start)
    {
      BodyUpTo(CommandEventV, events, i);
      WriteCommandEvent(w, events[i]);
    }
    assert events[..|events|] == events;
  }

  method WriteRuntimeEvent(w: ByteWriter, event: RuntimeEvent) returns (r: Outcome)
    modifies w
    ensures r.Done? <==> Fits(event.key)
    ensures r.Done? ==> w.bytes == Emit(RuntimeEventV(event), old(w.bytes))
  {
    w.WriteU8(event.kind);
    w.WriteU32(event.serverTick);
    w.WriteU64(event.serverTimeUs);
    w.WriteU16(event.peerId);
    :- w.WriteString(event.key);
    w.WriteF32(event.value);
    w.WriteBool(event.applied);
    r := Done;
  }

  method WriteRuntimeEvents(w: ByteWriter, events: seq<RuntimeEvent>) returns (r: Outcome)
    modifies w
    ensures r.Done? <==> RuntimeEventsFit(events)
    ensures r.Done? ==> w.bytes == Emit(ListOf(RuntimeEventV, events), old(w.bytes))
  {
    w.WriteTruncated(|events|);
    ghost var start := w.bytes;
    for i := 0 to |events|
      invariant RuntimeEventsFit(events[..i])
      invariant w.bytes == Emit(Body(RuntimeEventV, events[..i]), start)
    {
      BodyUpTo(RuntimeEventV, events, i);
      assert !Fits(events[i].key) ==> !RuntimeEventsFit(events);
      :- WriteRuntimeEvent(w, events[i]);
    }
    assert events[..|events|] == events;
    r := Done;
  }

  method WriteSnapshotEvent(w: ByteWriter, event: SnapshotEvent)
    modifies w
    ensures w.bytes == Emit(SnapshotEventV(event), old(w.bytes))
  {
    w.WriteU8(event.kind);
    w.WriteI32(event.sourcePlayerId);
    w.WriteI32(event.targetEntityId);
    WriteVec3(w, event.origin);
    WriteVec3(w, event.direction);
    w.WriteBool(event.hit);
  }

  method WriteCombatEvent(w: ByteWriter, event: CombatEvent)
    modifies w
    ensures w.bytes == Emit(CombatEventV(event), old(w.bytes))
  {
    w.WriteU32(event.serverTick);
    w.WriteU64(event.serverTimeUs);
    WriteSnapshotEvent(w, event.event);
  }

  method WriteCombatEvents(w: ByteWriter, events: seq<CombatEvent>)
    modifies w
    ensures w.bytes == Emit(ListOf(CombatEventV, events), old(w.bytes))
  {
    w.WriteTruncated(|events|);
    ghost var start := w.bytes;
    for i := 0 to |events|
      invariant w.bytes == Emit(Body(CombatEventV, events[..i]), start)
    {
      BodyUpTo(CombatEventV, events, i);
      WriteCombatEvent(w, events[i]);
    }
    assert events[..|events|] == events;
  }

  method WriteKeyframe(w: ByteWriter, keyframe: WorldKeyframe) returns (r: Outcome)
    modifies w
    ensures r.Done? <==> RosterFits(keyframe.worldState.roster)
    ensures r.Done? ==> w.bytes == Emit(KeyframeV(keyframe), old(w.bytes))
  {
    hide WorldV;
    w.WriteU8(keyframe.track);
    w.WriteU32(keyframe.serverTick);
    w.WriteU64(keyframe.serverTimeUs);
    :- WriteWorldState(w, keyframe.worldState);
    WritePlayers(w, keyframe.controlPlayers);
    r := Done;
  }

  method WriteKeyframes(w: ByteWriter, keyframes: seq<WorldKeyframe>) returns (r: Outcome)
    modifies w
    ensures r.Done? <==> KeyframesFit(keyframes)
    ensures r.Done? ==> w.bytes == Emit(ListOf(KeyframeV, keyframes), old(w.bytes))
  {
    hide WorldV;
    w.WriteTruncated(|keyframes|);
    ghost var start := w.bytes;
    for i := 0 to |keyframes|
      invariant KeyframesFit(keyframes[..i])
      invariant w.bytes == Emit(Body(KeyframeV, keyframes[..i]), start)
    {
      BodyUpTo(KeyframeV, keyframes, i);
      assert !RosterFits(keyframes[i].worldState.roster) ==> !KeyframesFit(keyframes);
      :- WriteKeyframe(w, keyframes[i]);
    }
    assert keyframes[..|keyframes|] == keyframes;
    r := Done;
  }

  method WritePerceptionStamp(w: ByteWriter, event: PerceptionEvent)
    modifies w
    ensures w.bytes == Emit(StampV(event), old(w.bytes))
  {
    w.WriteU8(event.kind);
    w.WriteU32(event.clientFrame);
    w.WriteU64(event.clientTimeUs);
    w.WriteU32(event.serverTick);
    w.WriteU64(event.serverTimeUs);
    w.WriteU32(event.commandSeq);
  }

  method WritePerceptionView(w: ByteWriter, event: PerceptionEvent)
    modifies w
    ensures w.bytes == Emit(ViewV(event), old(w.bytes))
  {
    w.WriteF32(event.correctionMagnitude);
    w.WriteF32(event.yaw);
    w.WriteF32(event.pitch);
    w.WriteBool(event.predictionEnabled);
    w.WriteBool(event.interpolationEnabled);
  }

  method WritePerceptionEvent(w: ByteWriter, event: PerceptionEvent)
    modifies w
    ensures w.bytes == Emit(PerceptionV(event), old(w.bytes))
  {
    WritePerceptionStamp(w, event);
    WritePerceptionView(w, event);
  }

  method WritePerceptionEvents(w: ByteWriter, events: seq<PerceptionEvent>)
    modifies w
    ensures w.bytes == Emit(ListOf(PerceptionV, events), old(w.bytes))
  {
    w.WriteTruncated(|events|);
    ghost var start := w.bytes;
    for i := 0 to |events|
      invariant w.bytes == Emit(Body(PerceptionV, events[..i]), start)
    {
      BodyUpTo(PerceptionV, events, i);
      WritePerceptionEvent(w, events[i]);
    }
    assert events[..|events|] == events;
  }

  method WriteTrack(w: ByteWriter, track: PerceptionTrack) returns (r: Outcome)
    modifies w
    ensures r.Done? <==> Fits(track.playerName)
    ensures r.Done? ==> w.bytes == Emit(TrackV(track), old(w.bytes))
  {
    w.WriteU16(track.peerId);
    :- w.WriteString(track.playerName);
    WritePerceptionEvents(w, track.events);
    r := Done;
  }

  method WriteTracks(w: ByteWriter, tracks: seq<PerceptionTrack>) returns (r: Outcome)
    modifies w
    ensures r.Done? <==> TracksFit(tracks)
    ensures r.Done? ==> w.bytes == Emit(ListOf(TrackV, tracks), old(w.bytes))
  {
    w.WriteTruncated(|tracks|);
    ghost var start := w.bytes;
    for i := 0 to |tracks|
      invariant TracksFit(tracks[..i])
      invariant w.bytes == Emit(Body(TrackV, tracks[..i]), start)
    {
      BodyUpTo(TrackV, tracks, i);
      assert !Fits(tracks[i].playerName) ==> !TracksFit(tracks);
      :- WriteTrack(w, tracks[i]);
    }
    assert tracks[..|tracks|] == tracks;
    r := Done;
  }

  method WritePolicy(w: ByteWriter, policy: ShotPolicy)
    modifies w
    ensures w.bytes == Emit(PolicyV(policy), old(w.bytes))
  {
    w.WriteU32(policy.maxRewindMs);
    w.WriteF32(policy.respawnDelaySeconds);
    w.WriteF32(policy.spawnProtectionSeconds);
    w.WriteU8(policy.shotEvaluationMode);
  }

  method WriteHeaderIdentity(w: ByteWriter, header: Header)
    modifies w
    ensures w.bytes == Emit(IdentityV(header), old(w.bytes))
  {
    w.WriteU16(header.protocolVersion);
    w.WriteI32(header.levelSlot);
    w.WriteU32(header.levelHash);
    w.WriteU16(header.tickRateHz);
    w.WriteU16(header.snapshotRateHz);
    w.WriteU32(header.simConfigVersion);
    w.WriteU64(header.recordedAtUnixSeconds);
  }

  method WriteHeaderBack(w: ByteWriter, header: Header) returns (r: Outcome)
    requires header.formatVersion == FORMAT_VERSION
    modifies w
    ensures r.Done? <==> Fits(header.title) && Fits(header.sourceLabel)
    ensures r.Done? ==> w.bytes == Emit(BackV(header), old(w.bytes))
  {
    w.WriteU64(header.startedServerTimeUs);
    w.WriteU64(header.durationUs);
    WritePolicy(w, header.policy);
    w.WriteBool(header.hasControlLane);
    w.WriteBool(header.hasClientPerceptionTracks);
    :- w.WriteString(header.title);
    :- w.WriteString(header.sourceLabel);
    r := Done;
  }

  method WriteHeader(w: ByteWriter, header: Header) returns (r: Outcome)
    requires header.formatVersion == FORMAT_VERSION
    modifies w
    ensures r.Done? <==> Fits(header.title) && Fits(header.sourceLabel)
    ensures r.Done? ==> w.bytes == Emit(HeaderV(header), old(w.bytes))
  {
    w.WriteU32(header.formatVersion);
    WriteHeaderIdentity(w, header);
    :- WriteHeaderBack(w, header);
    r := Done;
  }

  datatype Saved = Saved(bytes: Bytes) | UnsupportedVersion | LengthError

  /** Saves a demo of the current version; an over-long string ends the save with an exception. */
  method WriteBytes(demo: Demo) returns (r: Saved)
    ensures r.UnsupportedVersion? <==> demo.header.formatVersion != FORMAT_VERSION
    ensures r.Saved? <==> demo.header.formatVersion == FORMAT_VERSION && StringsFit(demo)
    ensures r.Saved? ==> r.bytes == Image(demo)
  {
    if demo.header.formatVersion != FORMAT_VERSION {
      return UnsupportedVersion;
    }
    var w := new ByteWriter();
    var thrown := WriteDemo(w, demo);
    r := if thrown.Done? then Saved(w.bytes) else LengthError;
  }

  method WriteStart(w: ByteWriter, demo: Demo) returns (r: Outcome)
    requires demo.header.formatVersion == FORMAT_VERSION
    modifies w
    ensures r.Done? <==> StartFits(demo)
    ensures r.Done? ==> w.bytes == Emit(StartV(demo.header, demo.simConfig, demo.worldState), old(w.bytes))
  {
    w.WriteU32(MAGIC);
    :- WriteHeader(w, demo.header);
    WriteSimConfig(w, demo.simConfig);
    :- WriteWorldState(w, demo.worldState);
    r := Done;
  }

  method WriteEvents(w: ByteWriter, demo: Demo) returns (r: Outcome)
    modifies w
    ensures r.Done? <==> EventsFit(demo)
    ensures r.Done? ==> w.bytes == Emit(EventsV(demo), old(w.bytes))
  {
    WriteCommandEvents(w, demo.commandEvents);
    :- WriteRuntimeEvents(w, demo.runtimeEvents);
    WriteCombatEvents(w, demo.combatEvents);
    :- WriteKeyframes(w, demo.keyframes);
    :- WriteTracks(w, demo.clientTracks);
    r := Done;
  }

  method WriteDemo(w: ByteWriter, demo: Demo) returns (r: Outcome)
    requires demo.header.formatVersion == FORMAT_VERSION
    modifies w
    ensures r.Done? <==> StringsFit(demo)
    ensures r.Done? ==> w.bytes == Emit(DemoV(demo), old(w.bytes))
  {
    r := Done;
    :- WriteStart(w, demo);
    :- WriteEvents(w, demo);
  }
}
