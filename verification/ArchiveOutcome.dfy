/** What becomes of every demo that is saved and loaded again, also of one beyond the limits of the reader. */
module ArchiveOutcome {
  import opened ArchiveLimits
  import opened ArchiveReader
  import opened ArchiveWriter
  import opened Codec
  import opened Format
  import opened FormatLaws
  import opened ReplayArchive
  import opened ReplayDemo
  import opened SimTypes
  import opened WireLaws
  import opened Words

  // ---------------------------------------------------------------------------------------------
  // Waypoint indices are cut to 32 bits

  function CutIndices(indices: seq<U64>): (r: seq<U64>)
    ensures |r| == |indices| && forall i :: 0 <= i < |r| ==> r[i] == indices[i] % COUNT_RANGE
  {
    seq(|indices|, i requires 0 <= i < |indices| => indices[i] % COUNT_RANGE)
  }

  function CutWorld(w: WorldState): WorldState {
    w.(enemyWaypointIndices := CutIndices(w.enemyWaypointIndices))
  }

  function CutKeyframes(ks: seq<WorldKeyframe>): (r: seq<WorldKeyframe>)
    ensures |r| == |ks| && forall i :: 0 <= i < |r| ==> r[i] == ks[i].(worldState := CutWorld(ks[i].worldState))
  {
    seq(|ks|, i requires 0 <= i < |ks| => ks[i].(worldState := CutWorld(ks[i].worldState)))
  }

  /** The demo with every waypoint index modulo 2^32. */
  function Cut(d: Demo): Demo {
    d.(worldState := CutWorld(d.worldState), keyframes := CutKeyframes(d.keyframes))
  }

  lemma WorldSameWire(w: WorldState)
    ensures SameWire(WorldV(w), WorldV(CutWorld(w)))
  {
    hide SameWire, WorldFrontV, SessionV, ActorV, RosterV, Vec3V;
    var c := CutWorld(w);
    forall i | 0 <= i < |w.enemyWaypointIndices|
      ensures SameWire(IndexV(w.enemyWaypointIndices[i]), IndexV(c.enemyWaypointIndices[i]))
    {
      CutSameWire(w.enemyWaypointIndices[i]);
    }
    ListSameWire(IndexV, w.enemyWaypointIndices, c.enemyWaypointIndices);
    hide IndexV, N32, ListOf;
    var front := WorldFrontV(w.environment, w.cadence, w.authoritativeTime, w.players);
    var middle := VQuad(ListOf(ActorV, w.enemies), ListOf(RosterV, w.roster), SessionV(w.teamScores, w.sessionMetadata),
                        ListOf(Vec3V, w.playerSpawns));
    SameWireSelf(front);
    SameWireSelf(middle);
    SameWireSelf(ListOf(Vec3V, w.enemySpawns));
    SameWireSelf(ListOf(N32, w.enemyRespawnTimers));
    PairSameWire(ListOf(IndexV, w.enemyWaypointIndices), ListOf(N32, w.enemyRespawnTimers),
                 ListOf(IndexV, c.enemyWaypointIndices), ListOf(N32, w.enemyRespawnTimers));
    QuadSameWire(front, middle, ListOf(Vec3V, w.enemySpawns),
                 VPair(ListOf(IndexV, w.enemyWaypointIndices), ListOf(N32, w.enemyRespawnTimers)),
                 front, middle, ListOf(Vec3V, w.enemySpawns),
                 VPair(ListOf(IndexV, c.enemyWaypointIndices), ListOf(N32, w.enemyRespawnTimers)));
  }

  lemma KeyframeSameWire(k: WorldKeyframe)
    ensures SameWire(KeyframeV(k), KeyframeV(k.(worldState := CutWorld(k.worldState))))
  {
    WorldSameWire(k.worldState);
    hide SameWire, WorldV, CutWorld, ListOf, PlayerV;
    var v, c := WorldV(k.worldState), WorldV(CutWorld(k.worldState));
    var players := ListOf(PlayerV, k.controlPlayers);
    SameWireSelf(N8(k.track));
    SameWireSelf(N32(k.serverTick));
    SameWireSelf(N64(k.serverTimeUs));
    SameWireSelf(players);
    QuadSameWire(N8(k.track), N32(k.serverTick), N64(k.serverTimeUs), v,
                 N8(k.track), N32(k.serverTick), N64(k.serverTimeUs), c);
    PairSameWire(VQuad(N8(k.track), N32(k.serverTick), N64(k.serverTimeUs), v), players,
                 VQuad(N8(k.track), N32(k.serverTick), N64(k.serverTimeUs), c), players);
  }

  lemma EventsSameWire(d: Demo)
    ensures SameWire(EventsV(d), EventsV(Cut(d)))
  {
    hide SameWire, KeyframeV, CommandEventV, RuntimeEventV, CombatEventV, TrackV, CutWorld;
    var c := Cut(d);
    forall i | 0 <= i < |d.keyframes|
      ensures SameWire(KeyframeV(d.keyframes[i]), KeyframeV(c.keyframes[i]))
    {
      KeyframeSameWire(d.keyframes[i]);
    }
    ListSameWire(KeyframeV, d.keyframes, c.keyframes);
    hide ListOf;
    var first := VPair(ListOf(CommandEventV, d.commandEvents), ListOf(RuntimeEventV, d.runtimeEvents));
    SameWireSelf(first);
    SameWireSelf(ListOf(CombatEventV, d.combatEvents));
    SameWireSelf(ListOf(TrackV, d.clientTracks));
    var combat, tracks := ListOf(CombatEventV, d.combatEvents), ListOf(TrackV, d.clientTracks);
    QuadSameWire(first, combat, ListOf(KeyframeV, d.keyframes), tracks,
                 first, combat, ListOf(KeyframeV, c.keyframes), tracks);
  }

  /** A demo and its cut are saved as the same bytes. */
  lemma CutSameImage(d: Demo)
    ensures Image(d) == Image(Cut(d))
  {
    WorldSameWire(d.worldState);
    EventsSameWire(d);
    hide SameWire, HeaderV, SimConfigV, WorldV, EventsV, CutWorld, CutKeyframes;
    var c := Cut(d);
    SameWireSelf(N32(MAGIC));
    SameWireSelf(HeaderV(d.header));
    SameWireSelf(SimConfigV(d.simConfig));
    QuadSameWire(N32(MAGIC), HeaderV(d.header), SimConfigV(d.simConfig), WorldV(d.worldState),
                 N32(MAGIC), HeaderV(d.header), SimConfigV(d.simConfig), WorldV(c.worldState));
    PairSameWire(StartV(d.header, d.simConfig, d.worldState), EventsV(d),
                 StartV(d.header, d.simConfig, c.worldState), EventsV(c));
    SameWritten(DemoV(d), DemoV(c));
  }

  lemma SameWritten(v: Val, u: Val)
    requires SameWire(v, u)
    ensures Encode(v) == Encode(u)
  {
  }

  // ---------------------------------------------------------------------------------------------
  // Demos whose counts fit 32 bits

  predicate Counted<T>(xs: seq<T>) {
    |xs| < COUNT_RANGE
  }

  predicate WorldCounted(w: WorldState) {
    Counted(w.environment.collisionBoxes) && Counted(w.players) && Counted(w.enemies) && Counted(w.roster)
    && Counted(w.playerSpawns) && Counted(w.enemySpawns) && Counted(w.enemyWaypointIndices)
    && Counted(w.enemyRespawnTimers)
  }

  /** No list of the demo has 2^32 elements or more. */
  predicate ListsCounted(d: Demo) {
    WorldCounted(d.worldState) && Counted(d.commandEvents) && Counted(d.runtimeEvents) && Counted(d.combatEvents)
    && Counted(d.keyframes) && Counted(d.clientTracks)
    && (forall i :: 0 <= i < |d.keyframes| ==>
          WorldCounted(d.keyframes[i].worldState) && Counted(d.keyframes[i].controlPlayers))
    && forall i :: 0 <= i < |d.clientTracks| ==> Counted(d.clientTracks[i].events)
  }

  /** Lists of elements that fit their widths fit theirs. */
  lemma ListLifts<T>(layout: T -> Val, f: Fmt, max: nat, xs: seq<T>)
    requires Counted(xs) && forall i :: 0 <= i < |xs| ==> Conforms(Lifted(f), layout(xs[i]))
    ensures Conforms(Lifted(FList(max, f)), ListOf(layout, xs))
  {
    BodyConforms(layout, Lifted(f), xs);
  }

  lemma PairLifts(f0: Fmt, f1: Fmt, v0: Val, v1: Val)
    requires Conforms(Lifted(f0), v0) && Conforms(Lifted(f1), v1)
    ensures Conforms(Lifted(FPair(f0, f1)), VPair(v0, v1))
  {
  }

  lemma QuadLifts(f0: Fmt, f1: Fmt, f2: Fmt, f3: Fmt, v0: Val, v1: Val, v2: Val, v3: Val)
    requires Conforms(Lifted(f0), v0) && Conforms(Lifted(f1), v1)
    requires Conforms(Lifted(f2), v2) && Conforms(Lifted(f3), v3)
    ensures Conforms(Lifted(FQuad(f0, f1, f2, f3)), VQuad(v0, v1, v2, v3))
  {
  }

  /** Numbers, booleans and strings that fit. */
  lemma PartsLift()
    ensures forall n: U8, last: U8 :: Conforms(Lifted(FEnum(last)), N8(n))
    ensures forall n: U16 :: Conforms(Lifted(FU16()), N16(n))
    ensures forall n: U32 :: Conforms(Lifted(FU32()), N32(n))
    ensures forall i: I32 :: Conforms(Lifted(FU32()), NI(i))
    ensures forall n: U64 :: Conforms(Lifted(FU64()), N64(n))
    ensures forall b: bool :: Conforms(Lifted(FBool), VBool(b))
    ensures forall s: Bytes :: Fits(s) ==> Conforms(Lifted(FStr), VStr(s))
  {
    Ranges();
  }

  lemma RosterEntryLifts(e: RosterEntry)
    requires Fits(e.displayName)
    ensures Conforms(Lifted(RosterF()), RosterV(e))
  {
    RosterRoleLifts(e);
    RosterStatusLifts(e);
    PartsLift();
    hide RosterRoleF, RosterRoleV, RosterStatusF, RosterStatusV, Lifted, Conforms;
    PairLifts(RosterStatusF(), FStr, RosterStatusV(e), VStr(e.displayName));
    PairLifts(RosterRoleF(), FPair(RosterStatusF(), FStr),
              RosterRoleV(e), VPair(RosterStatusV(e), VStr(e.displayName)));
  }

  lemma RosterRoleLifts(e: RosterEntry)
    ensures Conforms(Lifted(RosterRoleF()), RosterRoleV(e))
  {
    PartsLift();
    var team, presence, participation := N8(e.team), N8(e.sessionPresence), N8(e.participation);
    hide Lifted, Conforms;
    PairLifts(FEnum(LAST_BINDING), FU32(), N8(e.control.kind), NI(e.control.actorId));
    QuadLifts(FU32(), FEnum(LAST_TEAM), FEnum(LAST_PRESENCE), FEnum(LAST_PARTICIPATION),
              NI(e.actorId), team, presence, participation);
    QuadLifts(BindingF(), FBool, FU16(), FU16(),
              BindingV(e.control), VBool(e.isBot), N16(e.kills), N16(e.deaths));
    PairLifts(FQuad(FU32(), FEnum(LAST_TEAM), FEnum(LAST_PRESENCE), FEnum(LAST_PARTICIPATION)),
              FQuad(BindingF(), FBool, FU16(), FU16()),
              VQuad(NI(e.actorId), team, presence, participation),
              VQuad(BindingV(e.control), VBool(e.isBot), N16(e.kills), N16(e.deaths)));
  }

  lemma RosterStatusLifts(e: RosterEntry)
    ensures Conforms(Lifted(RosterStatusF()), RosterStatusV(e))
  {
    Ranges();
  }

  lemma FrontLifts(w: WorldState)
    requires WorldCounted(w)
    ensures Conforms(Lifted(WorldFrontF()), WorldFrontV(w.environment, w.cadence, w.authoritativeTime, w.players))
  {
    Ranges();
    EnvironmentLifts(w.environment);
    assert Conforms(Lifted(CadenceF()), CadenceV(w.cadence));
    assert Conforms(Lifted(TimeF()), TimeV(w.authoritativeTime));
    PlayersLift(w.players);
    hide EnvironmentF, EnvironmentV, CadenceF, CadenceV, TimeF, TimeV, PlayerF, PlayerV, ListOf;
  }

  lemma EnvironmentLifts(e: MovementEnvironment)
    requires Counted(e.collisionBoxes)
    ensures Conforms(Lifted(EnvironmentF()), EnvironmentV(e))
  {
    Ranges();
    forall i | 0 <= i < |e.collisionBoxes|
      ensures Conforms(Lifted(BoxF()), BoxV(e.collisionBoxes[i]))
    {
      Vec3Conforms(e.collisionBoxes[i].center);
      Vec3Conforms(e.collisionBoxes[i].halfSize);
      assert Conforms(BoxF(), BoxV(e.collisionBoxes[i]));
      ConformsLifted(BoxF(), BoxV(e.collisionBoxes[i]));
    }
    ListLifts(BoxV, BoxF(), MAX_COLLISION_BOXES, e.collisionBoxes);
    hide BoxF, BoxV, ListOf;
  }

  lemma PlayersLift(players: seq<PlayerState<F32>>)
    requires Counted(players)
    ensures Conforms(Lifted(FList(MAX_WORLD_PLAYERS, PlayerF())), ListOf(PlayerV, players))
  {
    hide PlayerF, PlayerV;
    forall i | 0 <= i < |players|
      ensures Conforms(Lifted(PlayerF()), PlayerV(players[i]))
    {
      PlayerConforms(players[i]);
      ConformsLifted(PlayerF(), PlayerV(players[i]));
    }
    ListLifts(PlayerV, PlayerF(), MAX_WORLD_PLAYERS, players);
  }

  lemma SpawnsLift(spawns: seq<Vec3<F32>>)
    requires Counted(spawns)
    ensures Conforms(Lifted(FList(MAX_WORLD_SPAWNS, Vec3F())), ListOf(Vec3V, spawns))
  {
    hide Vec3F, Vec3V;
    forall i | 0 <= i < |spawns|
      ensures Conforms(Lifted(Vec3F()), Vec3V(spawns[i]))
    {
      Vec3Conforms(spawns[i]);
      ConformsLifted(Vec3F(), Vec3V(spawns[i]));
    }
    ListLifts(Vec3V, Vec3F(), MAX_WORLD_SPAWNS, spawns);
  }

  lemma MiddleLifts(w: WorldState)
    requires WorldCounted(w) && RosterFits(w.roster)
    ensures Conforms(Lifted(FList(MAX_WORLD_ENEMIES, ActorF())), ListOf(ActorV, w.enemies))
    ensures Conforms(Lifted(FList(MAX_WORLD_ROSTER, RosterF())), ListOf(RosterV, w.roster))
  {
    hide ActorF, ActorV, RosterF, RosterV;
    forall i | 0 <= i < |w.enemies|
      ensures Conforms(Lifted(ActorF()), ActorV(w.enemies[i]))
    {
      ActorConforms(w.enemies[i]);
      ConformsLifted(ActorF(), ActorV(w.enemies[i]));
    }
    ListLifts(ActorV, ActorF(), MAX_WORLD_ENEMIES, w.enemies);
    forall i | 0 <= i < |w.roster|
      ensures Conforms(Lifted(RosterF()), RosterV(w.roster[i]))
    {
      RosterEntryLifts(w.roster[i]);
    }
    ListLifts(RosterV, RosterF(), MAX_WORLD_ROSTER, w.roster);
  }

  lemma BackLifts(w: WorldState)
    requires WorldCounted(w)
    requires forall i :: 0 <= i < |w.enemyWaypointIndices| ==> w.enemyWaypointIndices[i] < COUNT_RANGE
    ensures Conforms(Lifted(FList(MAX_WORLD_SPAWNS, FU32())), ListOf(IndexV, w.enemyWaypointIndices))
    ensures Conforms(Lifted(FList(MAX_WORLD_SPAWNS, FU32())), ListOf(N32, w.enemyRespawnTimers))
  {
    Ranges();
    ListLifts(IndexV, FU32(), MAX_WORLD_SPAWNS, w.enemyWaypointIndices);
    ListLifts(N32, FU32(), MAX_WORLD_SPAWNS, w.enemyRespawnTimers);
  }

  lemma WorldLifts(w: WorldState)
    requires WorldCounted(w) && RosterFits(w.roster)
    requires forall i :: 0 <= i < |w.enemyWaypointIndices| ==> w.enemyWaypointIndices[i] < COUNT_RANGE
    ensures Conforms(Lifted(WorldF()), WorldV(w))
  {
    FrontLifts(w);
    MiddleLifts(w);
    SpawnsLift(w.playerSpawns);
    SpawnsLift(w.enemySpawns);
    BackLifts(w);
    SessionLifts(w);
    hide WorldFrontF, WorldFrontV, SessionF, SessionV, ActorF, ActorV, RosterF, RosterV, Vec3F, Vec3V, ListOf, Lifted,
         Conforms, WorldCounted, RosterFits;
    var spawnsF := FList(MAX_WORLD_SPAWNS, Vec3F());
    var numbersF := FList(MAX_WORLD_SPAWNS, FU32());
    QuadLifts(FList(MAX_WORLD_ENEMIES, ActorF()), FList(MAX_WORLD_ROSTER, RosterF()), SessionF(), spawnsF,
              ListOf(ActorV, w.enemies), ListOf(RosterV, w.roster), SessionV(w.teamScores, w.sessionMetadata),
              ListOf(Vec3V, w.playerSpawns));
    PairLifts(numbersF, numbersF, ListOf(IndexV, w.enemyWaypointIndices), ListOf(N32, w.enemyRespawnTimers));
    QuadLifts(WorldFrontF(),
              FQuad(FList(MAX_WORLD_ENEMIES, ActorF()), FList(MAX_WORLD_ROSTER, RosterF()), SessionF(), spawnsF),
              spawnsF, FPair(numbersF, numbersF),
              WorldFrontV(w.environment, w.cadence, w.authoritativeTime, w.players),
              VQuad(ListOf(ActorV, w.enemies), ListOf(RosterV, w.roster), SessionV(w.teamScores, w.sessionMetadata),
                    ListOf(Vec3V, w.playerSpawns)),
              ListOf(Vec3V, w.enemySpawns),
              VPair(ListOf(IndexV, w.enemyWaypointIndices), ListOf(N32, w.enemyRespawnTimers)));
  }

  lemma SessionLifts(w: WorldState)
    ensures Conforms(Lifted(SessionF()), SessionV(w.teamScores, w.sessionMetadata))
  {
    Ranges();
  }

  lemma KeyframeLifts(k: WorldKeyframe)
    requires WorldCounted(k.worldState) && RosterFits(k.worldState.roster) && Counted(k.controlPlayers)
    requires var indices := k.worldState.enemyWaypointIndices;
      forall i :: 0 <= i < |indices| ==> indices[i] < COUNT_RANGE
    ensures Conforms(Lifted(KeyframeF()), KeyframeV(k))
  {
    WorldLifts(k.worldState);
    PlayersLift(k.controlPlayers);
    PartsLift();
    hide WorldF, WorldV, PlayerF, PlayerV, ListOf, Lifted, Conforms, WorldCounted, RosterFits;
    QuadLifts(FEnum(LAST_TRACK), FU32(), FU64(), WorldF(),
              N8(k.track), N32(k.serverTick), N64(k.serverTimeUs), WorldV(k.worldState));
    PairLifts(FQuad(FEnum(LAST_TRACK), FU32(), FU64(), WorldF()), FList(MAX_WORLD_PLAYERS, PlayerF()),
              VQuad(N8(k.track), N32(k.serverTick), N64(k.serverTimeUs), WorldV(k.worldState)),
              ListOf(PlayerV, k.controlPlayers));
  }

  lemma PerceptionLifts(e: PerceptionEvent)
    ensures Conforms(Lifted(PerceptionF()), PerceptionV(e))
  {
    Ranges();
    assert Conforms(Lifted(StampF()), StampV(e));
    assert Conforms(Lifted(ViewF()), ViewV(e));
    hide StampF, StampV, ViewF, ViewV;
  }

  lemma TrackLifts(t: PerceptionTrack)
    requires Fits(t.playerName) && Counted(t.events)
    ensures Conforms(Lifted(TrackF()), TrackV(t))
  {
    PartsLift();
    forall e: PerceptionEvent {
      PerceptionLifts(e);
    }
    ListLifts(PerceptionV, PerceptionF(), MAX_CLIENT_EVENTS, t.events);
    hide PerceptionF, PerceptionV, ListOf, Lifted, Conforms;
    var eventsF := FList(MAX_CLIENT_EVENTS, PerceptionF());
    PairLifts(FStr, eventsF, VStr(t.playerName), ListOf(PerceptionV, t.events));
    PairLifts(FU16(), FPair(FStr, eventsF), N16(t.peerId), VPair(VStr(t.playerName), ListOf(PerceptionV, t.events)));
  }

  lemma CommandLifts(c: PlayerCommand)
    ensures Conforms(Lifted(CommandF()), CommandV(c))
  {
    InputLifts(c);
    TimingLifts(c);
    hide InputF, InputV, TimingF, TimingV, Lifted, Conforms;
    PairLifts(InputF(), TimingF(), InputV(c), TimingV(c));
  }

  lemma InputLifts(c: PlayerCommand)
    ensures Conforms(Lifted(InputF()), InputV(c))
  {
    Ranges();
  }

  lemma TimingLifts(c: PlayerCommand)
    ensures Conforms(Lifted(TimingF()), TimingV(c))
  {
    Ranges();
  }

  lemma CommandEventLifts(e: ServerCommandEvent)
    ensures Conforms(Lifted(CommandEventF()), CommandEventV(e))
  {
    PartsLift();
    CommandLifts(e.command);
    hide CommandF, CommandV, Lifted, Conforms;
    PairLifts(FEnum(LAST_TRACK), FEnum(LAST_STAGE), N8(e.track), N8(e.stage));
    PairLifts(FU16(), FU32(), N16(e.peerId), NI(e.actorId));
    PairLifts(FU32(), FU64(), N32(e.serverTick), N64(e.serverTimeUs));
    QuadLifts(FPair(FEnum(LAST_TRACK), FEnum(LAST_STAGE)), FPair(FU16(), FU32()), FPair(FU32(), FU64()), CommandF(),
              VPair(N8(e.track), N8(e.stage)), VPair(N16(e.peerId), NI(e.actorId)),
              VPair(N32(e.serverTick), N64(e.serverTimeUs)), CommandV(e.command));
  }

  lemma RuntimeEventLifts(e: RuntimeEvent)
    requires Fits(e.key)
    ensures Conforms(Lifted(RuntimeEventF()), RuntimeEventV(e))
  {
    Ranges();
  }

  lemma CombatEventLifts(e: CombatEvent)
    ensures Conforms(Lifted(CombatEventF()), CombatEventV(e))
  {
    Ranges();
    Vec3Conforms(e.event.origin);
    Vec3Conforms(e.event.direction);
    ConformsLifted(Vec3F(), Vec3V(e.event.origin));
    ConformsLifted(Vec3F(), Vec3V(e.event.direction));
    hide Vec3F, Vec3V;
    assert Conforms(Lifted(SnapshotEventF()), SnapshotEventV(e.event));
  }

  lemma EventListsLift(d: Demo)
    requires ListsCounted(d) && EventsFit(d)
    ensures Conforms(Lifted(FList(MAX_COMMANDS, CommandEventF())), ListOf(CommandEventV, d.commandEvents))
    ensures Conforms(Lifted(FList(MAX_EVENTS, RuntimeEventF())), ListOf(RuntimeEventV, d.runtimeEvents))
    ensures Conforms(Lifted(FList(MAX_EVENTS, CombatEventF())), ListOf(CombatEventV, d.combatEvents))
    ensures Conforms(Lifted(FList(MAX_CLIENTS, TrackF())), ListOf(TrackV, d.clientTracks))
  {
    hide CommandEventF, CommandEventV, RuntimeEventF, RuntimeEventV, CombatEventF, CombatEventV, TrackF, TrackV;
    forall e: ServerCommandEvent {
      CommandEventLifts(e);
    }
    forall i | 0 <= i < |d.runtimeEvents|
      ensures Conforms(Lifted(RuntimeEventF()), RuntimeEventV(d.runtimeEvents[i]))
    {
      RuntimeEventLifts(d.runtimeEvents[i]);
    }
    forall e: CombatEvent {
      CombatEventLifts(e);
    }
    forall i | 0 <= i < |d.clientTracks|
      ensures Conforms(Lifted(TrackF()), TrackV(d.clientTracks[i]))
    {
      TrackLifts(d.clientTracks[i]);
    }
    ListLifts(CommandEventV, CommandEventF(), MAX_COMMANDS, d.commandEvents);
    ListLifts(RuntimeEventV, RuntimeEventF(), MAX_EVENTS, d.runtimeEvents);
    ListLifts(CombatEventV, CombatEventF(), MAX_EVENTS, d.combatEvents);
    ListLifts(TrackV, TrackF(), MAX_CLIENTS, d.clientTracks);
  }

  lemma KeyframesLift(d: Demo)
    requires ListsCounted(d) && EventsFit(d)
    ensures Conforms(Lifted(FList(MAX_KEYFRAMES, KeyframeF())), ListOf(KeyframeV, Cut(d).keyframes))
  {
    hide KeyframeF, KeyframeV;
    var ks := Cut(d).keyframes;
    forall i | 0 <= i < |ks|
      ensures Conforms(Lifted(KeyframeF()), KeyframeV(ks[i]))
    {
      KeyframeLifts(ks[i]);
    }
    ListLifts(KeyframeV, KeyframeF(), MAX_KEYFRAMES, ks);
  }

  lemma EventsLift(d: Demo)
    requires ListsCounted(d) && EventsFit(d)
    ensures Conforms(Lifted(EventsF()), EventsV(Cut(d)))
  {
    EventListsLift(d);
    KeyframesLift(d);
    hide CommandEventF, CommandEventV, RuntimeEventF, RuntimeEventV, CombatEventF, CombatEventV, TrackF, TrackV,
         KeyframeF, KeyframeV, ListOf, ListsCounted, EventsFit;
  }

  lemma HeaderLifts(h: Header)
    requires Supported(h.formatVersion) && Fits(h.title) && Fits(h.sourceLabel)
    ensures Conforms(Lifted(HeaderF(h.formatVersion)), HeaderV(h))
  {
    HeaderFrontLifts(h);
    VersionLifts(h.formatVersion);
    HeaderBackLifts(h);
    var v := h.formatVersion;
    hide IdentityF, IdentityV, BackF, BackV, Lifted, Conforms;
    PairLifts(IdentityF(), BackF(v), IdentityV(h), BackV(h));
    PairLifts(VersionF(v), FPair(IdentityF(), BackF(v)), N32(v), VPair(IdentityV(h), BackV(h)));
  }

  lemma HeaderFrontLifts(h: Header)
    ensures Conforms(Lifted(IdentityF()), IdentityV(h))
  {
    PartsLift();
    hide Lifted, Conforms;
    QuadLifts(FU16(), FU16(), FU32(), FU64(),
              N16(h.tickRateHz), N16(h.snapshotRateHz), N32(h.simConfigVersion), N64(h.recordedAtUnixSeconds));
    QuadLifts(FU16(), FU32(), FU32(), FQuad(FU16(), FU16(), FU32(), FU64()),
              N16(h.protocolVersion), NI(h.levelSlot), N32(h.levelHash),
              VQuad(N16(h.tickRateHz), N16(h.snapshotRateHz), N32(h.simConfigVersion), N64(h.recordedAtUnixSeconds)));
  }

  lemma VersionLifts(version: U32)
    ensures Conforms(Lifted(VersionF(version)), N32(version))
  {
    Ranges();
  }

  lemma HeaderBackLifts(h: Header)
    requires Fits(h.title) && Fits(h.sourceLabel)
    ensures Conforms(Lifted(BackF(h.formatVersion)), BackV(h))
  {
    PartsLift();
    var v := h.formatVersion;
    PolicyLifts(v, h.policy);
    hide PolicyForF, PolicyForV, Lifted, Conforms;
    PairLifts(FU64(), FU64(), N64(h.startedServerTimeUs), N64(h.durationUs));
    PairLifts(FBool, FBool, VBool(h.hasControlLane), VBool(h.hasClientPerceptionTracks));
    PairLifts(FStr, FStr, VStr(h.title), VStr(h.sourceLabel));
    QuadLifts(FPair(FU64(), FU64()), PolicyForF(v), FPair(FBool, FBool), FPair(FStr, FStr),
              VPair(N64(h.startedServerTimeUs), N64(h.durationUs)), PolicyForV(v, h.policy),
              VPair(VBool(h.hasControlLane), VBool(h.hasClientPerceptionTracks)),
              VPair(VStr(h.title), VStr(h.sourceLabel)));
  }

  lemma PolicyLifts(version: U32, policy: ShotPolicy)
    ensures Conforms(Lifted(PolicyForF(version)), PolicyForV(version, policy))
  {
    Ranges();
  }

  lemma MagicLifts()
    ensures Conforms(Lifted(FNum(4, MAGIC, MAGIC)), N32(MAGIC))
  {
    Ranges();
  }

  /** A cut demo whose strings and counts fit is written uncut. */
  lemma CutLifts(d: Demo)
    requires Supported(d.header.formatVersion) && ListsCounted(d) && StringsFit(d)
    ensures Conforms(Lifted(DemoF(d.header.formatVersion)), DemoV(Cut(d)))
  {
    var c, v := Cut(d), d.header.formatVersion;
    PartsLift();
    HeaderLifts(d.header);
    SimConfigConforms(d.simConfig);
    ConformsLifted(SimConfigF(), SimConfigV(d.simConfig));
    WorldLifts(c.worldState);
    EventsLift(d);
    hide HeaderF, HeaderV, SimConfigF, SimConfigV, WorldF, WorldV, EventsF, EventsV, CutWorld, CutKeyframes, Lifted,
         Conforms, ListsCounted, StringsFit;
    assert Conforms(Lifted(FNum(4, MAGIC, MAGIC)), N32(MAGIC)) by {
      MagicLifts();
    }
    QuadLifts(FNum(4, MAGIC, MAGIC), HeaderF(v), SimConfigF(), WorldF(),
              N32(MAGIC), HeaderV(d.header), SimConfigV(d.simConfig), WorldV(c.worldState));
    PairLifts(StartF(v), EventsF(), StartV(d.header, d.simConfig, c.worldState), EventsV(c));
  }

  // ---------------------------------------------------------------------------------------------
  // What a saved demo loads as

  /**
   What a saved demo loads as, for every demo of the current version whose strings and counts fit: the demo with its
   waypoint indices modulo 2^32 when that is within the limits of the reader, and nothing at all when it is not.
   */
  lemma SavedLoadsAs(d: Demo, e: Demo)
    requires d.header.formatVersion == FORMAT_VERSION && ListsCounted(d) && StringsFit(d)
    ensures Loads(Image(d), e) <==> InLimits(Cut(d)) && e == Cut(d)
  {
    hide InLimits, Loads, ListsCounted, StringsFit, DemoF, DemoV, Image;
    CutSameImage(d);
    RoundTrip(Cut(d));
    if Loads(Image(d), e) {
      SavedVersion(d, e);
      ReadsAsCut(d, e);
    }
  }

  /** What is loaded states the version that was saved. */
  lemma SavedVersion(d: Demo, e: Demo)
    requires d.header.formatVersion == FORMAT_VERSION && ListsCounted(d) && StringsFit(d)
    requires Loads(Image(d), e)
    ensures e.header.formatVersion == FORMAT_VERSION
  {
    StatedVersion(Image(d), e);
    CutSameImage(d);
    CutSpelled(d);
    hide StartV, EventsV, Image, CutWorld, CutKeyframes, Loads, ListsCounted, StringsFit, Spells;
    SpelledVersion(Image(d), d.header, d.simConfig, Cut(d).worldState, EventsV(Cut(d)));
  }

  lemma CutSpelled(d: Demo)
    requires Supported(d.header.formatVersion) && ListsCounted(d) && StringsFit(d)
    ensures Spells(Image(Cut(d)), 0, VPair(StartV(d.header, d.simConfig, Cut(d).worldState), EventsV(Cut(d))))
  {
    CutLifts(d);
    hide StartV, EventsV, Lifted, Conforms, Encodable, CutWorld, CutKeyframes, DemoF;
    ConformsEncodable(Lifted(DemoF(d.header.formatVersion)), DemoV(Cut(d)));
    EmitSpells(DemoV(Cut(d)), []);
  }

  lemma ReadsAsCut(d: Demo, e: Demo)
    requires d.header.formatVersion == e.header.formatVersion == FORMAT_VERSION && ListsCounted(d) && StringsFit(d)
    requires Loads(Image(d), e)
    ensures e == Cut(d)
  {
    CutSameImage(d);
    CutLifts(d);
    hide DemoF, DemoV, ListsCounted, StringsFit, Cut, Lifted;
    WrittenReadsAs(DemoF(FORMAT_VERSION), DemoV(Cut(d)), DemoV(e), |Image(d)|);
    assert Cut(d).header == d.header by {
      CutHeader(d);
    }
    DemoInjective(e, Cut(d));
  }

  lemma CutHeader(d: Demo)
    ensures Cut(d).header == d.header
  {
  }

  /** Within the limits nothing is cut. */
  lemma CutWithinLimits(d: Demo)
    ensures InLimits(d) <==> InLimits(Cut(d)) && Cut(d) == d
  {
    if InLimits(d) {
      assert CutIndices(d.worldState.enemyWaypointIndices) == d.worldState.enemyWaypointIndices;
      assert forall i :: 0 <= i < |d.keyframes| ==>
        KeyframeOk(d.keyframes[i])
        && CutIndices(d.keyframes[i].worldState.enemyWaypointIndices) == d.keyframes[i].worldState.enemyWaypointIndices;
      assert CutKeyframes(d.keyframes) == d.keyframes;
    }
  }

  /**
   What `save` and then `load` do to any demo: a demo within the limits comes back, and only such a one; of the others
   of the current version whose strings and counts fit, the cut demo comes back where it is within the limits.
   */
  method SaveAndLoad(demo: Demo) returns (saved: Saved, load: Load)
    ensures InLimits(demo) && demo.header.formatVersion == FORMAT_VERSION ==> load == Loaded(demo)
    ensures load.Loaded? && load.demo == demo ==> InLimits(demo)
    ensures saved.Saved? <==> demo.header.formatVersion == FORMAT_VERSION && StringsFit(demo)
    ensures saved.Saved? && ListsCounted(demo) ==>
              (load.Loaded? <==> InLimits(Cut(demo))) && (load.Loaded? ==> load.demo == Cut(demo))
  {
    hide InLimits, StringsFit, ListsCounted, Loads, Image, Cut;
    load := InvalidHeader;
    saved := WriteBytes(demo);
    RoundTrip(demo);
    if InLimits(demo) {
      LimitsFit(demo);
    }
    if saved.Saved? {
      load := ReadBytes(saved.bytes);
      if InLimits(demo) {
        LoadsOne(saved.bytes, demo, load.demo);
      }
      if ListsCounted(demo) {
        SavedLoadsAs(demo, Cut(demo));
        if load.Loaded? {
          SavedLoadsAs(demo, load.demo);
        }
      }
    }
  }
}
