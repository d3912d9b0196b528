/** The limits of the archive reader, field by field, and the proof that they are those of the demo format. */
module ArchiveLimits {
  import opened Words
  import opened Format
  import opened FormatLaws
  import opened Codec
  import opened SimTypes
  import opened ReplayDemo

  // ---------------------------------------------------------------------------------------------
  // The limits of the reader, field by field

  predicate RosterEntryOk(e: RosterEntry) {
    && e.team <= LAST_TEAM
    && e.sessionPresence <= LAST_PRESENCE
    && e.participation <= LAST_PARTICIPATION
    && e.control.kind <= LAST_BINDING
    && e.reconciliationStrategy <= LAST_STRATEGY
    && Fits(e.displayName)
  }

  predicate WorldOk(w: WorldState) {
    && |w.environment.collisionBoxes| <= MAX_COLLISION_BOXES
    && |w.players| <= MAX_WORLD_PLAYERS
    && |w.enemies| <= MAX_WORLD_ENEMIES
    && |w.roster| <= MAX_WORLD_ROSTER
    && (forall i :: 0 <= i < |w.roster| ==> RosterEntryOk(w.roster[i]))
    && |w.playerSpawns| <= MAX_WORLD_SPAWNS
    && |w.enemySpawns| <= MAX_WORLD_SPAWNS
    && |w.enemyWaypointIndices| <= MAX_WORLD_SPAWNS
    && (forall i :: 0 <= i < |w.enemyWaypointIndices| ==> w.enemyWaypointIndices[i] < 0x1_0000_0000)
    && |w.enemyRespawnTimers| <= MAX_WORLD_SPAWNS
  }

  predicate CommandEventOk(e: ServerCommandEvent) {
    e.track <= LAST_TRACK && e.stage <= LAST_STAGE && e.command.requestedTeam <= LAST_TEAM
  }

  predicate RuntimeEventOk(e: RuntimeEvent) {
    e.kind <= LAST_RUNTIME_EVENT && Fits(e.key)
  }

  predicate CombatEventOk(e: CombatEvent) {
    e.event.kind <= LAST_SNAPSHOT_EVENT
  }

  predicate KeyframeOk(k: WorldKeyframe) {
    k.track <= LAST_TRACK && WorldOk(k.worldState) && |k.controlPlayers| <= MAX_WORLD_PLAYERS
  }

  predicate TrackOk(t: PerceptionTrack) {
    && Fits(t.playerName)
    && |t.events| <= MAX_CLIENT_EVENTS
    && forall i :: 0 <= i < |t.events| ==> t.events[i].kind <= LAST_PERCEPTION_EVENT
  }

  predicate EventsOk(d: Demo) {
    && |d.commandEvents| <= MAX_COMMANDS
    && (forall i :: 0 <= i < |d.commandEvents| ==> CommandEventOk(d.commandEvents[i]))
    && |d.runtimeEvents| <= MAX_EVENTS
    && (forall i :: 0 <= i < |d.runtimeEvents| ==> RuntimeEventOk(d.runtimeEvents[i]))
    && |d.combatEvents| <= MAX_EVENTS
    && (forall i :: 0 <= i < |d.combatEvents| ==> CombatEventOk(d.combatEvents[i]))
    && |d.keyframes| <= MAX_KEYFRAMES
    && (forall i :: 0 <= i < |d.keyframes| ==> KeyframeOk(d.keyframes[i]))
    && |d.clientTracks| <= MAX_CLIENTS
    && (forall i :: 0 <= i < |d.clientTracks| ==> TrackOk(d.clientTracks[i]))
  }

  predicate HeaderOk(h: Header) {
    WellVersioned(h) && h.policy.shotEvaluationMode <= LAST_SHOT_MODE && Fits(h.title) && Fits(h.sourceLabel)
  }

  /** Every list, string, index and enumeration of the demo is one the reader takes. */
  predicate InLimits(d: Demo) {
    HeaderOk(d.header) && WorldOk(d.worldState) && EventsOk(d)
  }

  // ---------------------------------------------------------------------------------------------
  // The limits are those of the format

  /** The ranges of the integer widths. */
  lemma Ranges()
    ensures Range(1) == 0x100 && Range(2) == 0x1_0000 && Range(4) == 0x1_0000_0000
    ensures Range(8) == 0x1_0000_0000_0000_0000
  {
    RangeOfWord();
    assert Range(2) == 0x1_0000 && Range(4) == 0x1_0000_0000;
  }

  lemma Vec3Conforms(v: Vec3<F32>)
    ensures Conforms(Vec3F(), Vec3V(v))
  {
    Ranges();
  }

  lemma PlayerConforms(p: PlayerState<F32>)
    ensures Conforms(PlayerF(), PlayerV(p))
  {
    Ranges();
    Vec3Conforms(p.position);
    Vec3Conforms(p.velocity);
    hide Vec3F, Vec3V;
  }

  lemma ActorConforms(a: RemoteActorState<F32>)
    ensures Conforms(ActorF(), ActorV(a))
  {
    Ranges();
    Vec3Conforms(a.position);
    Vec3Conforms(a.velocity);
    hide Vec3F, Vec3V;
  }

  lemma RosterConforms(e: RosterEntry)
    ensures Conforms(RosterF(), RosterV(e)) <==> RosterEntryOk(e)
  {
    Ranges();
    RosterRoleConforms(e);
    RosterStatusConforms(e);
    hide RosterRoleF, RosterRoleV, RosterStatusF, RosterStatusV;
  }

  lemma RosterRoleConforms(e: RosterEntry)
    ensures Conforms(RosterRoleF(), RosterRoleV(e))
       <==> && e.team <= LAST_TEAM && e.sessionPresence <= LAST_PRESENCE && e.participation <= LAST_PARTICIPATION
            && e.control.kind <= LAST_BINDING
  {
    Ranges();
    assert Conforms(BindingF(), BindingV(e.control)) <==> e.control.kind <= LAST_BINDING;
  }

  lemma RosterStatusConforms(e: RosterEntry)
    ensures Conforms(RosterStatusF(), RosterStatusV(e)) <==> e.reconciliationStrategy <= LAST_STRATEGY
  {
    Ranges();
  }

  lemma EnvironmentConforms(e: MovementEnvironment)
    ensures Conforms(EnvironmentF(), EnvironmentV(e)) <==> |e.collisionBoxes| <= MAX_COLLISION_BOXES
  {
    Ranges();
    forall i | 0 <= i < |e.collisionBoxes| ensures Conforms(BoxF(), BoxV(e.collisionBoxes[i])) {
      Vec3Conforms(e.collisionBoxes[i].center);
      Vec3Conforms(e.collisionBoxes[i].halfSize);
    }
    BodyConforms(BoxV, BoxF(), e.collisionBoxes);
    hide BoxF, BoxV;
  }

  lemma SimConfigConforms(c: SimConfig<F32>)
    ensures Conforms(SimConfigF(), SimConfigV(c))
  {
    Ranges();
    assert Conforms(MovementF(), MovementV(c));
    assert Conforms(CombatF(), CombatV(c));
    hide MovementF, MovementV, CombatF, CombatV;
  }

  lemma PlayersConform(players: seq<PlayerState<F32>>)
    ensures Conforms(FList(MAX_WORLD_PLAYERS, PlayerF()), ListOf(PlayerV, players)) <==> |players| <= MAX_WORLD_PLAYERS
  {
    forall i | 0 <= i < |players| ensures Conforms(PlayerF(), PlayerV(players[i])) {
      PlayerConforms(players[i]);
    }
    BodyConforms(PlayerV, PlayerF(), players);
    hide PlayerF, PlayerV;
  }

  lemma EnemiesConform(enemies: seq<RemoteActorState<F32>>)
    ensures Conforms(FList(MAX_WORLD_ENEMIES, ActorF()), ListOf(ActorV, enemies)) <==> |enemies| <= MAX_WORLD_ENEMIES
  {
    forall i | 0 <= i < |enemies| ensures Conforms(ActorF(), ActorV(enemies[i])) {
      ActorConforms(enemies[i]);
    }
    BodyConforms(ActorV, ActorF(), enemies);
    hide ActorF, ActorV;
  }

  lemma RosterListConforms(roster: seq<RosterEntry>)
    ensures Conforms(FList(MAX_WORLD_ROSTER, RosterF()), ListOf(RosterV, roster))
       <==> |roster| <= MAX_WORLD_ROSTER && forall i :: 0 <= i < |roster| ==> RosterEntryOk(roster[i])
  {
    forall i | 0 <= i < |roster| ensures Conforms(RosterF(), RosterV(roster[i])) <==> RosterEntryOk(roster[i]) {
      RosterConforms(roster[i]);
    }
    BodyConforms(RosterV, RosterF(), roster);
    hide RosterF, RosterV, RosterEntryOk;
  }

  lemma SpawnsConform(spawns: seq<Vec3<F32>>)
    ensures Conforms(FList(MAX_WORLD_SPAWNS, Vec3F()), ListOf(Vec3V, spawns)) <==> |spawns| <= MAX_WORLD_SPAWNS
  {
    forall i | 0 <= i < |spawns| ensures Conforms(Vec3F(), Vec3V(spawns[i])) {
      Vec3Conforms(spawns[i]);
    }
    BodyConforms(Vec3V, Vec3F(), spawns);
    hide Vec3F, Vec3V;
  }

  lemma IndicesConform(indices: seq<U64>)
    ensures Conforms(FList(MAX_WORLD_SPAWNS, FU32()), ListOf(IndexV, indices))
       <==> |indices| <= MAX_WORLD_SPAWNS && forall i :: 0 <= i < |indices| ==> indices[i] < 0x1_0000_0000
  {
    Ranges();
    BodyConforms(IndexV, FU32(), indices);
  }

  lemma TimersConform(timers: seq<F32>)
    ensures Conforms(FList(MAX_WORLD_SPAWNS, FU32()), ListOf(N32, timers)) <==> |timers| <= MAX_WORLD_SPAWNS
  {
    Ranges();
    BodyConforms(N32, FU32(), timers);
  }

  lemma WorldConforms(w: WorldState)
    ensures Conforms(WorldF(), WorldV(w)) <==> WorldOk(w)
  {
    Ranges();
    assert Conforms(CadenceF(), CadenceV(w.cadence));
    assert Conforms(TimeF(), TimeV(w.authoritativeTime));
    assert Conforms(SessionF(), SessionV(w.teamScores, w.sessionMetadata));
    EnvironmentConforms(w.environment);
    PlayersConform(w.players);
    EnemiesConform(w.enemies);
    RosterListConforms(w.roster);
    SpawnsConform(w.playerSpawns);
    SpawnsConform(w.enemySpawns);
    IndicesConform(w.enemyWaypointIndices);
    TimersConform(w.enemyRespawnTimers);
    hide EnvironmentF, EnvironmentV, CadenceF, CadenceV, TimeF, TimeV, SessionF, SessionV;
    hide PlayerF, PlayerV, ActorF, ActorV, RosterF, RosterV, Vec3F, Vec3V, RosterEntryOk, ListOf;
  }

  lemma CommandEventConforms(e: ServerCommandEvent)
    ensures Conforms(CommandEventF(), CommandEventV(e)) <==> CommandEventOk(e)
  {
    Ranges();
    assert Conforms(InputF(), InputV(e.command));
    assert Conforms(TimingF(), TimingV(e.command)) <==> e.command.requestedTeam <= LAST_TEAM;
    hide InputF, InputV, TimingF, TimingV;
  }

  lemma RuntimeEventConforms(e: RuntimeEvent)
    ensures Conforms(RuntimeEventF(), RuntimeEventV(e)) <==> RuntimeEventOk(e)
  {
    Ranges();
  }

  lemma CombatEventConforms(e: CombatEvent)
    ensures Conforms(CombatEventF(), CombatEventV(e)) <==> CombatEventOk(e)
  {
    Ranges();
    Vec3Conforms(e.event.origin);
    Vec3Conforms(e.event.direction);
    hide Vec3F, Vec3V;
    assert Conforms(SnapshotEventF(), SnapshotEventV(e.event)) <==> e.event.kind <= LAST_SNAPSHOT_EVENT;
  }

  lemma KeyframeConforms(k: WorldKeyframe)
    ensures Conforms(KeyframeF(), KeyframeV(k)) <==> KeyframeOk(k)
  {
    Ranges();
    WorldConforms(k.worldState);
    PlayersConform(k.controlPlayers);
    hide WorldF, WorldV, WorldOk, PlayerF, PlayerV, ListOf;
  }

  lemma PerceptionConforms(e: PerceptionEvent)
    ensures Conforms(PerceptionF(), PerceptionV(e)) <==> e.kind <= LAST_PERCEPTION_EVENT
  {
    Ranges();
    assert Conforms(StampF(), StampV(e)) <==> e.kind <= LAST_PERCEPTION_EVENT;
    assert Conforms(ViewF(), ViewV(e));
    hide StampF, StampV, ViewF, ViewV;
  }

  lemma TrackConforms(t: PerceptionTrack)
    ensures Conforms(TrackF(), TrackV(t)) <==> TrackOk(t)
  {
    Ranges();
    forall i | 0 <= i < |t.events|
      ensures Conforms(PerceptionF(), PerceptionV(t.events[i])) <==> t.events[i].kind <= LAST_PERCEPTION_EVENT
    {
      PerceptionConforms(t.events[i]);
    }
    BodyConforms(PerceptionV, PerceptionF(), t.events);
    hide PerceptionF, PerceptionV;
  }

  lemma ListsConform(d: Demo)
    ensures forall i :: 0 <= i < |d.commandEvents| ==>
              (Conforms(CommandEventF(), CommandEventV(d.commandEvents[i])) <==> CommandEventOk(d.commandEvents[i]))
    ensures forall i :: 0 <= i < |d.runtimeEvents| ==>
              (Conforms(RuntimeEventF(), RuntimeEventV(d.runtimeEvents[i])) <==> RuntimeEventOk(d.runtimeEvents[i]))
    ensures forall i :: 0 <= i < |d.combatEvents| ==>
              (Conforms(CombatEventF(), CombatEventV(d.combatEvents[i])) <==> CombatEventOk(d.combatEvents[i]))
    ensures forall i :: 0 <= i < |d.keyframes| ==>
              (Conforms(KeyframeF(), KeyframeV(d.keyframes[i])) <==> KeyframeOk(d.keyframes[i]))
    ensures forall i :: 0 <= i < |d.clientTracks| ==>
              (Conforms(TrackF(), TrackV(d.clientTracks[i])) <==> TrackOk(d.clientTracks[i]))
  {
    hide CommandEventF, CommandEventV, RuntimeEventF, RuntimeEventV, CombatEventF, CombatEventV;
    hide KeyframeF, KeyframeV, TrackF, TrackV;
    hide CommandEventOk, RuntimeEventOk, CombatEventOk, KeyframeOk, TrackOk;
    forall i | 0 <= i < |d.commandEvents| {
      CommandEventConforms(d.commandEvents[i]);
    }
    forall i | 0 <= i < |d.runtimeEvents| {
      RuntimeEventConforms(d.runtimeEvents[i]);
    }
    forall i | 0 <= i < |d.combatEvents| {
      CombatEventConforms(d.combatEvents[i]);
    }
    forall i | 0 <= i < |d.keyframes| {
      KeyframeConforms(d.keyframes[i]);
    }
    forall i | 0 <= i < |d.clientTracks| {
      TrackConforms(d.clientTracks[i]);
    }
  }

  lemma EventsConform(d: Demo)
    ensures Conforms(EventsF(), EventsV(d)) <==> EventsOk(d)
  {
    ListsConform(d);
    hide CommandEventF, CommandEventV, RuntimeEventF, RuntimeEventV, CombatEventF, CombatEventV;
    hide KeyframeF, KeyframeV, TrackF, TrackV;
    hide CommandEventOk, RuntimeEventOk, CombatEventOk, KeyframeOk, TrackOk;
    BodyConforms(CommandEventV, CommandEventF(), d.commandEvents);
    BodyConforms(RuntimeEventV, RuntimeEventF(), d.runtimeEvents);
    BodyConforms(CombatEventV, CombatEventF(), d.combatEvents);
    BodyConforms(KeyframeV, KeyframeF(), d.keyframes);
    BodyConforms(TrackV, TrackF(), d.clientTracks);
  }

  lemma HeaderConforms(h: Header)
    requires WellVersioned(h)
    ensures Conforms(HeaderF(h.formatVersion), HeaderV(h)) <==> HeaderOk(h)
  {
    Ranges();
    assert Conforms(IdentityF(), IdentityV(h));
    assert Conforms(VersionF(h.formatVersion), N32(h.formatVersion));
    assert Conforms(PolicyForF(h.formatVersion), PolicyForV(h.formatVersion, h.policy))
      <==> h.policy.shotEvaluationMode <= LAST_SHOT_MODE;
    hide IdentityF, IdentityV, VersionF, PolicyForF, PolicyForV;
    assert Conforms(BackF(h.formatVersion), BackV(h)) <==>
           h.policy.shotEvaluationMode <= LAST_SHOT_MODE && Fits(h.title) && Fits(h.sourceLabel);
    hide BackF, BackV;
  }

  lemma StartConforms(h: Header, c: SimConfig<F32>, w: WorldState)
    requires WellVersioned(h)
    ensures Conforms(StartF(h.formatVersion), StartV(h, c, w)) <==> HeaderOk(h) && WorldOk(w)
  {
    hide HeaderOk, WorldOk;
    Ranges();
    HeaderConforms(h);
    SimConfigConforms(c);
    WorldConforms(w);
    hide HeaderF, HeaderV, SimConfigF, SimConfigV, WorldF, WorldV;
  }

  /** The limits of the demo format are exactly those listed above. */
  lemma DemoConforms(d: Demo)
    requires WellVersioned(d.header)
    ensures Conforms(DemoF(d.header.formatVersion), DemoV(d)) <==> InLimits(d)
  {
    hide StartF, StartV, EventsF, EventsV, HeaderOk, WorldOk, EventsOk;
    StartConforms(d.header, d.simConfig, d.worldState);
    EventsConform(d);
  }
}
