/** What the archive promises: the laws of saving and loading a demo. */
module ReplayArchive {
  import opened Words
  import opened Format
  import opened FormatLaws
  import opened Codec
  import opened SimTypes
  import opened ReplayDemo
  import opened ArchiveLimits

  // ---------------------------------------------------------------------------------------------
  // The layout of a demo determines the demo

  lemma RosterEntryInjective(a: RosterEntry, b: RosterEntry)
    requires RosterV(a) == RosterV(b)
    ensures a == b
  {
  }

  lemma BoxesInjective(xs: seq<CollisionBox>, ys: seq<CollisionBox>)
    requires ListOf(BoxV, xs) == ListOf(BoxV, ys)
    ensures xs == ys
  {
    BodyInjective<CollisionBox>(BoxV, xs, ys);
  }

  lemma PlayersInjective(xs: seq<PlayerState<F32>>, ys: seq<PlayerState<F32>>)
    requires ListOf(PlayerV, xs) == ListOf(PlayerV, ys)
    ensures xs == ys
  {
    BodyInjective<PlayerState<F32>>(PlayerV, xs, ys);
  }

  lemma EnemiesInjective(xs: seq<RemoteActorState<F32>>, ys: seq<RemoteActorState<F32>>)
    requires ListOf(ActorV, xs) == ListOf(ActorV, ys)
    ensures xs == ys
  {
    BodyInjective<RemoteActorState<F32>>(ActorV, xs, ys);
  }

  lemma RosterInjective(xs: seq<RosterEntry>, ys: seq<RosterEntry>)
    requires ListOf(RosterV, xs) == ListOf(RosterV, ys)
    ensures xs == ys
  {
    hide RosterV;
    forall i | 0 <= i < |xs| && RosterV(xs[i]) == RosterV(ys[i]) ensures xs[i] == ys[i] {
      RosterEntryInjective(xs[i], ys[i]);
    }
    BodyInjective(RosterV, xs, ys);
  }

  lemma SpawnsInjective(xs: seq<Vec3<F32>>, ys: seq<Vec3<F32>>)
    requires ListOf(Vec3V, xs) == ListOf(Vec3V, ys)
    ensures xs == ys
  {
    BodyInjective<Vec3<F32>>(Vec3V, xs, ys);
  }

  lemma IndicesInjective(xs: seq<U64>, ys: seq<U64>)
    requires ListOf(IndexV, xs) == ListOf(IndexV, ys)
    ensures xs == ys
  {
    BodyInjective<U64>(IndexV, xs, ys);
  }

  lemma TimersInjective(xs: seq<F32>, ys: seq<F32>)
    requires ListOf(N32, xs) == ListOf(N32, ys)
    ensures xs == ys
  {
    BodyInjective<F32>(N32, xs, ys);
  }

  lemma WorldInjective(a: WorldState, b: WorldState)
    requires WorldV(a) == WorldV(b)
    ensures a == b
  {
    hide BoxV, PlayerV, ActorV, RosterV, Vec3V, ListOf;
    BoxesInjective(a.environment.collisionBoxes, b.environment.collisionBoxes);
    PlayersInjective(a.players, b.players);
    EnemiesInjective(a.enemies, b.enemies);
    RosterInjective(a.roster, b.roster);
    SpawnsInjective(a.playerSpawns, b.playerSpawns);
    SpawnsInjective(a.enemySpawns, b.enemySpawns);
    IndicesInjective(a.enemyWaypointIndices, b.enemyWaypointIndices);
    TimersInjective(a.enemyRespawnTimers, b.enemyRespawnTimers);
  }

  lemma KeyframeInjective(a: WorldKeyframe, b: WorldKeyframe)
    requires KeyframeV(a) == KeyframeV(b)
    ensures a == b
  {
    hide WorldV, PlayerV;
    WorldInjective(a.worldState, b.worldState);
    PlayersInjective(a.controlPlayers, b.controlPlayers);
  }

  lemma PerceptionInjective(xs: seq<PerceptionEvent>, ys: seq<PerceptionEvent>)
    requires ListOf(PerceptionV, xs) == ListOf(PerceptionV, ys)
    ensures xs == ys
  {
    BodyInjective<PerceptionEvent>(PerceptionV, xs, ys);
  }

  lemma TrackInjective(a: PerceptionTrack, b: PerceptionTrack)
    requires TrackV(a) == TrackV(b)
    ensures a == b
  {
    hide PerceptionV, ListOf;
    PerceptionInjective(a.events, b.events);
  }

  lemma CommandsInjective(xs: seq<ServerCommandEvent>, ys: seq<ServerCommandEvent>)
    requires ListOf(CommandEventV, xs) == ListOf(CommandEventV, ys)
    ensures xs == ys
  {
    BodyInjective<ServerCommandEvent>(CommandEventV, xs, ys);
  }

  lemma RuntimeInjective(xs: seq<RuntimeEvent>, ys: seq<RuntimeEvent>)
    requires ListOf(RuntimeEventV, xs) == ListOf(RuntimeEventV, ys)
    ensures xs == ys
  {
    BodyInjective<RuntimeEvent>(RuntimeEventV, xs, ys);
  }

  lemma CombatInjective(xs: seq<CombatEvent>, ys: seq<CombatEvent>)
    requires ListOf(CombatEventV, xs) == ListOf(CombatEventV, ys)
    ensures xs == ys
  {
    BodyInjective<CombatEvent>(CombatEventV, xs, ys);
  }

  lemma KeyframesInjective(xs: seq<WorldKeyframe>, ys: seq<WorldKeyframe>)
    requires ListOf(KeyframeV, xs) == ListOf(KeyframeV, ys)
    ensures xs == ys
  {
    hide KeyframeV;
    forall i | 0 <= i < |xs| && KeyframeV(xs[i]) == KeyframeV(ys[i]) ensures xs[i] == ys[i] {
      KeyframeInjective(xs[i], ys[i]);
    }
    BodyInjective(KeyframeV, xs, ys);
  }

  lemma TracksInjective(xs: seq<PerceptionTrack>, ys: seq<PerceptionTrack>)
    requires ListOf(TrackV, xs) == ListOf(TrackV, ys)
    ensures xs == ys
  {
    hide TrackV;
    forall i | 0 <= i < |xs| && TrackV(xs[i]) == TrackV(ys[i]) ensures xs[i] == ys[i] {
      TrackInjective(xs[i], ys[i]);
    }
    BodyInjective(TrackV, xs, ys);
  }

  lemma EventsInjective(a: Demo, b: Demo)
    requires EventsV(a) == EventsV(b)
    ensures a.commandEvents == b.commandEvents && a.runtimeEvents == b.runtimeEvents
    ensures a.combatEvents == b.combatEvents && a.keyframes == b.keyframes && a.clientTracks == b.clientTracks
  {
    hide CommandEventV, RuntimeEventV, CombatEventV, KeyframeV, TrackV, ListOf;
    CommandsInjective(a.commandEvents, b.commandEvents);
    RuntimeInjective(a.runtimeEvents, b.runtimeEvents);
    CombatInjective(a.combatEvents, b.combatEvents);
    KeyframesInjective(a.keyframes, b.keyframes);
    TracksInjective(a.clientTracks, b.clientTracks);
  }

  lemma HeaderInjective(a: Header, b: Header)
    requires WellVersioned(a) && WellVersioned(b) && HeaderV(a) == HeaderV(b)
    ensures a == b
  {
  }

  lemma DemoInjective(a: Demo, b: Demo)
    requires WellVersioned(a.header) && WellVersioned(b.header) && DemoV(a) == DemoV(b)
    ensures a == b
  {
    HeaderInjective(a.header, b.header);
    WorldInjective(a.worldState, b.worldState);
    EventsInjective(a, b);
    hide HeaderV, WorldV, EventsV;
  }

  // ---------------------------------------------------------------------------------------------
  // The laws

  /** Two buffers of the same length that differ at most in how they spell the true booleans of `d`. */
  ghost predicate SameUpToTrue(b: Bytes, c: Bytes, d: Demo) {
    |b| == |c| && Alike(b, c, 0, |b|, Bools(DemoV(d), 0))
  }

  /**
   The language of the archive, for both versions: a buffer loads as a demo exactly when the demo is within the
   limits and the buffer is the demo's image, up to the spelling of true.
   */
  lemma LanguageOfArchive(b: Bytes, d: Demo)
    ensures Loads(b, d) <==> InLimits(d) && SameUpToTrue(Image(d), b, d)
  {
    if WellVersioned(d.header) {
      LanguageOf(DemoF(d.header.formatVersion), b, DemoV(d));
      DemoConforms(d);
    }
  }

  /** A buffer loads as one demo at most. */
  lemma LoadsOne(b: Bytes, d: Demo, e: Demo)
    requires Loads(b, d) && Loads(b, e)
    ensures d == e
  {
    if d.header.formatVersion == e.header.formatVersion {
      DemoInjective(d, e);
    } else {
      StatedVersion(b, d);
      StatedVersion(b, e);
    }
  }

  /** The version is stated right after the magic number, in whatever is laid out... */
  lemma SpelledVersion(b: Bytes, h: Header, c: SimConfig<F32>, w: WorldState, rest: Val)
    requires Spells(b, 0, VPair(StartV(h, c, w), rest))
    ensures |b| >= 8 && LEAt(b, 4, 4) == h.formatVersion
  {
    hide SimConfigV, WorldV, IdentityV, BackV;
    assert Spells(b, 0, StartV(h, c, w));
    assert Spells(b, 0, Paired(N32(MAGIC), HeaderV(h), SimConfigV(c), WorldV(w)));
    assert Spells(b, 0, VPair(N32(MAGIC), HeaderV(h)));
    assert Spells(b, 4, HeaderV(h));
    assert Spells(b, 4, N32(h.formatVersion));
  }

  /** ... and so in whatever loads. */
  lemma StatedVersion(b: Bytes, d: Demo)
    requires Loads(b, d)
    ensures |b| >= 8 && LEAt(b, 4, 4) == d.header.formatVersion
  {
    DecSound(DemoF(d.header.formatVersion), b, 0);
    hide Dec, Spells, StartV, EventsV, DemoF, LEAt;
    SpelledVersion(b, d.header, d.simConfig, d.worldState, EventsV(d));
  }

  /** Saving a demo and loading what was saved gives the demo back exactly when the demo is within the limits. */
  lemma RoundTrip(d: Demo)
    ensures Loads(Image(d), d) <==> InLimits(d)
  {
    LanguageOfArchive(Image(d), d);
  }

  /** Neither an extension nor, read backwards, a proper prefix of a buffer that loads can load. */
  lemma SelfDelimiting(b: Bytes, rest: Bytes, d: Demo, e: Demo)
    requires Loads(b, d) && rest != []
    ensures !Loads(b + rest, e)
  {
    var v := d.header.formatVersion;
    DecIgnoresRest(DemoF(v), b, rest, 0, DemoV(d), |b|);
    StatedVersion(b, d);
    assert b[4..8] == (b + rest)[4..8];
    LEAtSame(b, 4, b + rest, 4, 4);
    if Loads(b + rest, e) {
      StatedVersion(b + rest, e);
    }
  }

  /** Strings within the limits fit their length prefix. */
  lemma LimitsFit(d: Demo)
    requires InLimits(d)
    ensures StringsFit(d)
  {
  }

  /**
   Loading normalises: what was loaded from a current-version buffer can be saved again, the saved buffer has the
   same length and the same bytes outside the booleans, its booleans are spelled 0 or 1, and it loads as the same demo.
   */
  lemma LoadingNormalises(b: Bytes, d: Demo)
    requires Loads(b, d) && d.header.formatVersion == FORMAT_VERSION
    ensures InLimits(d) && StringsFit(d)
    ensures |Image(d)| == |b| && Loads(Image(d), d)
    ensures forall i :: 0 <= i < |b| && i !in Bools(DemoV(d), 0) ==> Image(d)[i] == b[i]
    ensures forall i :: 0 <= i < |b| && i in Bools(DemoV(d), 0) ==> Image(d)[i] == if b[i] != 0 then 1 else 0
  {
    hide InLimits, StringsFit, Loads, DemoV;
    LanguageOfArchive(b, d);
    RoundTrip(d);
    LimitsFit(d);
    EmitSpellsBools(DemoV(d), []);
  }
}
