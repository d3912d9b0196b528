/** The saved file as one flat table of fields, in order: no nesting, no reader, numbers spelled byte by byte. */
module ArchiveTable {
  import opened Words
  import opened Format
  import opened Codec
  import opened SimTypes
  import opened ReplayDemo

  datatype Field =
    | Whole(width: nat, n: nat)
    | Flag(b: bool)
    | Text(s: Bytes)

  /** Byte `i` of a number is its digit for 256 to the power of `i`. */
  function Digits(width: nat, n: nat): (r: Bytes)
    ensures |r| == width
  {
    seq(width, i requires 0 <= i < width => n / Range(i) % 256)
  }

  function FieldBytes(f: Field): Bytes {
    match f
    case Whole(width, n) => Digits(width, n)
    case Flag(b) => [if b then 1 else 0]
    case Text(s) => Digits(2, |s|) + s
  }

  function Written(fs: seq<Field>): Bytes {
    if fs == [] then [] else FieldBytes(fs[0]) + Written(fs[1..])
  }

  // ---------------------------------------------------------------------------------------------
  // The table

  function Int32(i: I32): Field { Whole(4, i % COUNT_RANGE) }

  function Each<T>(row: T -> seq<Field>, xs: seq<T>): seq<Field> {
    if xs == [] then [] else Each(row, xs[..|xs| - 1]) + row(xs[|xs| - 1])
  }

  function Listed<T>(row: T -> seq<Field>, xs: seq<T>): seq<Field> {
    [Whole(4, |xs|)] + Each(row, xs)
  }

  function VectorRow(v: Vec3<F32>): seq<Field> {
    [Whole(4, v.x), Whole(4, v.y), Whole(4, v.z)]
  }

  function PlayerRow(p: PlayerState<F32>): seq<Field> {
    [Int32(p.playerId)] + VectorRow(p.position) + VectorRow(p.velocity)
    + [Whole(4, p.yaw), Whole(4, p.pitch), Whole(4, p.health), Whole(4, p.maxHealth),
       Whole(4, p.weaponCooldownRemaining), Int32(p.jumpsUsed), Flag(p.grounded)]
  }

  function ActorRow(a: RemoteActorState<F32>): seq<Field> {
    [Int32(a.entityId)] + VectorRow(a.position) + VectorRow(a.velocity)
    + [Whole(4, a.yaw), Whole(4, a.pitch), Whole(4, a.health), Whole(4, a.radius), Flag(a.alive)]
  }

  function RosterRow(e: RosterEntry): seq<Field> {
    [Int32(e.actorId), Whole(1, e.team), Whole(1, e.sessionPresence), Whole(1, e.participation),
     Whole(1, e.control.kind), Int32(e.control.actorId), Flag(e.isBot), Whole(2, e.kills), Whole(2, e.deaths),
     Whole(2, e.assists), Flag(e.alive), Flag(e.interpolationEnabled), Flag(e.predictionEnabled),
     Whole(1, e.reconciliationStrategy), Whole(4, e.smoothCorrectionWindowMs), Whole(2, e.latencyMs),
     Whole(1, e.lossPct), Text(e.displayName)]
  }

  function BoxRow(b: CollisionBox): seq<Field> {
    VectorRow(b.center) + VectorRow(b.halfSize)
  }

  function ConstantRows(c: SimConfig<F32>): seq<Field> {
    [Whole(4, c.playerEyeHeight), Whole(4, c.playerMoveSpeed), Whole(4, c.playerJumpVelocity),
     Whole(4, c.playerGravity), Int32(c.playerMaxJumps), Whole(4, c.playerRadius),
     Whole(4, c.playerCollisionHeight), Whole(4, c.minPitch), Whole(4, c.maxPitch), Whole(4, c.playerMaxHealth),
     Whole(4, c.enemyRadius), Whole(4, c.enemyMaxHealth), Whole(4, c.weaponCooldownSeconds),
     Whole(4, c.weaponDamage), Whole(4, c.weaponRange), Whole(4, c.arenaHalfSize)]
  }

  /** Of a waypoint index only four bytes are kept. */
  function IndexRow(i: U64): seq<Field> { [Whole(4, i)] }

  function TimerRow(t: F32): seq<Field> { [Whole(4, t)] }

  function ClockRows(w: WorldState): seq<Field> {
    [Whole(2, w.cadence.authoritativeTickHz), Whole(2, w.cadence.snapshotCadenceHz),
     Whole(2, w.cadence.commandCadenceHz), Whole(4, w.authoritativeTime.serverTick),
     Whole(8, w.authoritativeTime.serverTimeUs), Whole(8, w.authoritativeTime.viewedServerTimeUs)]
  }

  function SessionRows(s: TeamScores, m: SessionMetadata): seq<Field> {
    [Whole(2, s.attackers), Whole(2, s.defenders), Whole(4, m.sessionId), Int32(m.levelSlot), Whole(4, m.levelHash),
     Whole(2, m.maxHumanPlayers), Whole(2, m.connectedHumanPlayers), Whole(2, m.connectedBotPlayers)]
  }

  function ActorsRows(w: WorldState): seq<Field> {
    Listed(PlayerRow, w.players) + Listed(ActorRow, w.enemies) + Listed(RosterRow, w.roster)
  }

  function SpawnRows(w: WorldState): seq<Field> {
    Listed(VectorRow, w.playerSpawns) + Listed(VectorRow, w.enemySpawns)
    + Listed(IndexRow, w.enemyWaypointIndices) + Listed(TimerRow, w.enemyRespawnTimers)
  }

  function WorldRows(w: WorldState): seq<Field> {
    [Whole(4, w.environment.arenaHalfSize)] + Listed(BoxRow, w.environment.collisionBoxes)
    + ClockRows(w) + ActorsRows(w) + SessionRows(w.teamScores, w.sessionMetadata) + SpawnRows(w)
  }

  function CommandRow(c: PlayerCommand): seq<Field> {
    [Whole(4, c.seqNo), Whole(4, c.dtSeconds), Whole(4, c.moveX), Whole(4, c.moveY), Whole(4, c.yaw),
     Whole(4, c.pitch), Whole(4, c.buttons), Whole(8, c.viewedServerTimeUs), Whole(4, c.interpDelayMs),
     Whole(8, c.controlViewedServerTimeUs), Whole(4, c.controlInterpDelayMs), Whole(1, c.requestedTeam),
     Whole(2, c.reportedLatencyMs), Whole(1, c.reportedLossPct)]
  }

  function CommandEventRow(e: ServerCommandEvent): seq<Field> {
    [Whole(1, e.track), Whole(1, e.stage), Whole(2, e.peerId), Int32(e.actorId), Whole(4, e.serverTick),
     Whole(8, e.serverTimeUs)] + CommandRow(e.command)
  }

  function RuntimeEventRow(e: RuntimeEvent): seq<Field> {
    [Whole(1, e.kind), Whole(4, e.serverTick), Whole(8, e.serverTimeUs), Whole(2, e.peerId), Text(e.key),
     Whole(4, e.value), Flag(e.applied)]
  }

  function CombatEventRow(e: CombatEvent): seq<Field> {
    [Whole(4, e.serverTick), Whole(8, e.serverTimeUs), Whole(1, e.event.kind), Int32(e.event.sourcePlayerId),
     Int32(e.event.targetEntityId)]
    + VectorRow(e.event.origin) + VectorRow(e.event.direction) + [Flag(e.event.hit)]
  }

  function KeyframeRows(k: WorldKeyframe): seq<Field> {
    [Whole(1, k.track), Whole(4, k.serverTick), Whole(8, k.serverTimeUs)] + WorldRows(k.worldState)
    + Listed(PlayerRow, k.controlPlayers)
  }

  function PerceptionRow(e: PerceptionEvent): seq<Field> {
    [Whole(1, e.kind), Whole(4, e.clientFrame), Whole(8, e.clientTimeUs), Whole(4, e.serverTick),
     Whole(8, e.serverTimeUs), Whole(4, e.commandSeq), Whole(4, e.correctionMagnitude), Whole(4, e.yaw),
     Whole(4, e.pitch), Flag(e.predictionEnabled), Flag(e.interpolationEnabled)]
  }

  function TrackRows(t: PerceptionTrack): seq<Field> {
    [Whole(2, t.peerId), Text(t.playerName)] + Listed(PerceptionRow, t.events)
  }

  function OriginRows(h: Header): seq<Field> {
    [Whole(4, h.formatVersion), Whole(2, h.protocolVersion), Int32(h.levelSlot), Whole(4, h.levelHash),
     Whole(2, h.tickRateHz), Whole(2, h.snapshotRateHz), Whole(4, h.simConfigVersion),
     Whole(8, h.recordedAtUnixSeconds), Whole(8, h.startedServerTimeUs), Whole(8, h.durationUs)]
  }

  function HeaderRows(h: Header): seq<Field> {
    OriginRows(h) + PolicyRows(h)
    + [Flag(h.hasControlLane), Flag(h.hasClientPerceptionTracks), Text(h.title), Text(h.sourceLabel)]
  }

  /** The fields that the legacy version does not have. */
  function PolicyRows(h: Header): seq<Field> {
    if h.formatVersion == LEGACY_FORMAT_VERSION then [] else
    [Whole(4, h.policy.maxRewindMs), Whole(4, h.policy.respawnDelaySeconds), Whole(4, h.policy.spawnProtectionSeconds),
     Whole(1, h.policy.shotEvaluationMode)]
  }

  /** A saved demo, from the letters NCMD that start it to its last field. */
  function DemoRows(d: Demo): seq<Field> {
    [Whole(1, 0x4E), Whole(1, 0x43), Whole(1, 0x4D), Whole(1, 0x44)]
    + HeaderRows(d.header) + ConstantRows(d.simConfig) + WorldRows(d.worldState)
    + EventRows(d)
  }

  function EventRows(d: Demo): seq<Field> {
    Listed(CommandEventRow, d.commandEvents) + Listed(RuntimeEventRow, d.runtimeEvents)
    + Listed(CombatEventRow, d.combatEvents) + Listed(KeyframeRows, d.keyframes) + Listed(TrackRows, d.clientTracks)
  }

  // ---------------------------------------------------------------------------------------------
  // What is written is the table

  lemma {:induction false} DigitsAreLE(width: nat, n: nat)
    ensures LE(width, n) == Digits(width, n)
    decreases width
  {
    if width > 0 {
      DigitsAreLE(width - 1, n / 256);
      forall i | 0 <= i < width ensures LE(width, n)[i] == n / Range(i) % 256 {
        if i > 0 {
          assert LE(width, n)[i] == LE(width - 1, n / 256)[i - 1] == n / 256 / Range(i - 1) % 256;
          DivTwice(n, Range(i - 1));
        }
      }
    }
  }

  lemma DivTwice(n: nat, k: nat)
    requires k > 0
    ensures n / 256 / k == n / (256 * k)
  {
    var q, r := n / 256 / k, n / 256 % k;
    assert n / 256 == k * q + r;
    var t := k * q;
    assert n == 256 * t + 256 * r + n % 256;
    var rest := 256 * r + n % 256;
    assert 256 * t == 256 * k * q;
    QuotientIs(n, 256 * k, q, rest);
  }

  lemma QuotientIs(n: nat, k: nat, q: nat, r: nat)
    requires n == k * q + r && r < k
    ensures n / k == q
  {
    if n / k < q {
      LessTimes(k, n / k + 1, q);
    } else if n / k > q {
      LessTimes(k, q + 1, n / k);
    }
  }

  lemma LessTimes(k: nat, x: nat, y: nat)
    requires x <= y
    ensures k * x <= k * y
  {
  }

  /** The fields of a value, with its nesting gone. */
  function Fields(v: Val): seq<Field> {
    match v
    case VUnit => []
    case VNum(width, n) => [Whole(width, n)]
    case VBool(b) => [Flag(b)]
    case VStr(s) => [Text(s)]
    case VPair(v0, v1) => Fields(v0) + Fields(v1)
    case VQuad(v0, v1, v2, v3) => Fields(v0) + Fields(v1) + Fields(v2) + Fields(v3)
    case VList(n, body) => [Whole(4, n)] + Fields(body)
  }

  /** The equations of `Fields`, for values nested deeper than it is unfolded. */
  lemma Unnested()
    ensures forall v0, v1 :: Fields(VPair(v0, v1)) == Fields(v0) + Fields(v1)
    ensures forall v0, v1, v2, v3 ::
              Fields(VQuad(v0, v1, v2, v3)) == Fields(v0) + Fields(v1) + Fields(v2) + Fields(v3)
    ensures forall width, n :: Fields(VNum(width, n)) == [Whole(width, n)]
    ensures Fields(VUnit) == []
    ensures forall b :: Fields(VBool(b)) == [Flag(b)]
    ensures forall t :: Fields(VStr(t)) == [Text(t)]
  {
  }

  lemma {:induction false} WrittenJoins(fs: seq<Field>, gs: seq<Field>)
    ensures Written(fs + gs) == Written(fs) + Written(gs)
  {
    hide FieldBytes;
    if fs == [] {
      assert fs + gs == gs;
    } else {
      WrittenJoins(fs[1..], gs);
      assert (fs + gs)[1..] == fs[1..] + gs && (fs + gs)[0] == fs[0];
      Regroup(FieldBytes(fs[0]), Written(fs[1..]), Written(gs));
    }
  }

  lemma WrittenOne(f: Field)
    ensures Written([f]) == FieldBytes(f)
  {
  }

  /** The writer appends the fields of a value one after the other. */
  lemma {:induction false} EmitIsWritten(v: Val, acc: Bytes)
    ensures Emit(v, acc) == acc + Written(Fields(v))
    decreases v, 1
  {
    match v
    case VUnit =>
    case VNum(width, n) =>
      DigitsAreLE(width, n);
    case VBool(_) =>
    case VStr(s) =>
      DigitsAreLE(2, |s|);
      Regroup(acc, LE(2, |s|), s);
    case VPair(v0, v1) =>
      EmitIsWritten(v0, acc);
      EmitIsWritten(v1, Emit(v0, acc));
      WrittenJoins(Fields(v0), Fields(v1));
      assert Emit(v, acc) == acc + Written(Fields(v0)) + Written(Fields(v1));
      Regroup(acc, Written(Fields(v0)), Written(Fields(v1)));
    case VQuad(v0, v1, v2, v3) =>
      EmitFourIsWritten(v0, v1, v2, v3, acc);
    case VList(n, body) =>
      DigitsAreLE(4, n);
      EmitIsWritten(body, acc + LE(4, n));
      WrittenOne(Whole(4, n));
      WrittenJoins([Whole(4, n)], Fields(body));
      Regroup(acc, LE(4, n), Written(Fields(body)));
  }

  lemma {:induction false} EmitFourIsWritten(v0: Val, v1: Val, v2: Val, v3: Val, acc: Bytes)
    ensures Emit(VQuad(v0, v1, v2, v3), acc) == acc + Written(Fields(VQuad(v0, v1, v2, v3)))
    decreases VQuad(v0, v1, v2, v3), 0
  {
    EmitIsWritten(v0, acc);
    EmitIsWritten(v1, Emit(v0, acc));
    EmitIsWritten(v2, Emit(v1, Emit(v0, acc)));
    EmitIsWritten(v3, Emit(v2, Emit(v1, Emit(v0, acc))));
    var a, b, c, d := Fields(v0), Fields(v1), Fields(v2), Fields(v3);
    assert Fields(VQuad(v0, v1, v2, v3)) == a + b + c + d;
    assert Emit(VQuad(v0, v1, v2, v3), acc) == acc + Written(a) + Written(b) + Written(c) + Written(d);
    hide Emit, Written, Fields;
    FourJoin(a, b, c, d);
    FiveRegroup(acc, Written(a), Written(b), Written(c), Written(d));
  }

  lemma FiveRegroup<T>(a: seq<T>, b: seq<T>, c: seq<T>, d: seq<T>, e: seq<T>)
    ensures a + b + c + d + e == a + (b + c + d + e)
  {
    Regroup(a, b, c);
    Regroup(a, b + c, d);
    Regroup(a, b + c + d, e);
  }

  lemma FourJoin(a: seq<Field>, b: seq<Field>, c: seq<Field>, d: seq<Field>)
    ensures Written(a + b + c + d) == Written(a) + Written(b) + Written(c) + Written(d)
  {
    WrittenJoins(a + b + c, d);
    WrittenJoins(a + b, c);
    WrittenJoins(a, b);
  }

  lemma {:induction false} BodyFields<T>(layout: T -> Val, row: T -> seq<Field>, xs: seq<T>)
    requires forall i :: 0 <= i < |xs| ==> Fields(layout(xs[i])) == row(xs[i])
    ensures Fields(Body(layout, xs)) == Each(row, xs)
  {
    if xs != [] {
      var init := xs[..|xs| - 1];
      assert forall i :: 0 <= i < |init| ==> init[i] == xs[i];
      BodyFields(layout, row, init);
    }
  }

  lemma ListFields<T>(layout: T -> Val, row: T -> seq<Field>, xs: seq<T>)
    requires forall i :: 0 <= i < |xs| ==> Fields(layout(xs[i])) == row(xs[i])
    ensures Fields(ListOf(layout, xs)) == Listed(row, xs)
  {
    BodyFields(layout, row, xs);
  }

  lemma VectorFields(v: Vec3<F32>)
    ensures Fields(Vec3V(v)) == VectorRow(v)
  {
    Unnested();
    hide Fields;
  }

  lemma PlayerFields(p: PlayerState<F32>)
    ensures Fields(PlayerV(p)) == PlayerRow(p)
  {
    Unnested();
    hide Fields;
    VectorFields(p.position);
    VectorFields(p.velocity);
    hide Vec3V, VectorRow;
  }

  lemma ActorFields(a: RemoteActorState<F32>)
    ensures Fields(ActorV(a)) == ActorRow(a)
  {
    Unnested();
    hide Fields;
    VectorFields(a.position);
    VectorFields(a.velocity);
    hide Vec3V, VectorRow;
  }

  lemma RosterFields(e: RosterEntry)
    ensures Fields(RosterV(e)) == RosterRow(e)
  {
    Unnested();
    RosterRoleFields(e);
    RosterStatusFields(e);
    var row := RosterRow(e);
    hide Fields, RosterRoleV, RosterStatusV;
    assert Fields(RosterV(e)) == row[..9] + (row[9..17] + [Text(e.displayName)]);
  }

  lemma RosterRoleFields(e: RosterEntry)
    ensures Fields(RosterRoleV(e)) == RosterRow(e)[..9]
  {
    Unnested();
    hide Fields;
  }

  lemma RosterStatusFields(e: RosterEntry)
    ensures Fields(RosterStatusV(e)) == RosterRow(e)[9..17]
  {
    Unnested();
    hide Fields;
  }

  lemma BoxFields(b: CollisionBox)
    ensures Fields(BoxV(b)) == BoxRow(b)
  {
    Unnested();
    hide Fields;
  }

  lemma ConstantFields(c: SimConfig<F32>)
    ensures Fields(SimConfigV(c)) == ConstantRows(c)
  {
    Unnested();
    hide Fields;
  }

  lemma CommandFields(c: PlayerCommand)
    ensures Fields(CommandV(c)) == CommandRow(c)
  {
    Unnested();
    hide Fields;
  }

  lemma CommandEventFields(e: ServerCommandEvent)
    ensures Fields(CommandEventV(e)) == CommandEventRow(e)
  {
    Unnested();
    hide Fields;
    CommandFields(e.command);
    hide CommandV, CommandRow;
  }

  lemma RuntimeEventFields(e: RuntimeEvent)
    ensures Fields(RuntimeEventV(e)) == RuntimeEventRow(e)
  {
    Unnested();
    hide Fields;
  }

  lemma CombatEventFields(e: CombatEvent)
    ensures Fields(CombatEventV(e)) == CombatEventRow(e)
  {
    Unnested();
    hide Fields;
    VectorFields(e.event.origin);
    VectorFields(e.event.direction);
    hide Vec3V, VectorRow;
  }

  lemma PerceptionFields(e: PerceptionEvent)
    ensures Fields(PerceptionV(e)) == PerceptionRow(e)
  {
    Unnested();
    hide Fields;
  }

  lemma TrackFields(t: PerceptionTrack)
    ensures Fields(TrackV(t)) == TrackRows(t)
  {
    Unnested();
    hide Fields;
    hide PerceptionV, PerceptionRow, ListOf, Listed;
    forall i | 0 <= i < |t.events| { PerceptionFields(t.events[i]); }
    ListFields(PerceptionV, PerceptionRow, t.events);
  }

  lemma PlayersFields(xs: seq<PlayerState<F32>>)
    ensures Fields(ListOf(PlayerV, xs)) == Listed(PlayerRow, xs)
  {
    hide PlayerV, PlayerRow;
    forall i | 0 <= i < |xs| { PlayerFields(xs[i]); }
    ListFields(PlayerV, PlayerRow, xs);
  }

  lemma VectorsFields(xs: seq<Vec3<F32>>)
    ensures Fields(ListOf(Vec3V, xs)) == Listed(VectorRow, xs)
  {
    hide Vec3V, VectorRow;
    forall i | 0 <= i < |xs| { VectorFields(xs[i]); }
    ListFields(Vec3V, VectorRow, xs);
  }

  lemma WorldListsFields(w: WorldState)
    ensures Fields(ListOf(BoxV, w.environment.collisionBoxes)) == Listed(BoxRow, w.environment.collisionBoxes)
    ensures Fields(ListOf(ActorV, w.enemies)) == Listed(ActorRow, w.enemies)
    ensures Fields(ListOf(RosterV, w.roster)) == Listed(RosterRow, w.roster)
    ensures Fields(ListOf(IndexV, w.enemyWaypointIndices)) == Listed(IndexRow, w.enemyWaypointIndices)
    ensures Fields(ListOf(N32, w.enemyRespawnTimers)) == Listed(TimerRow, w.enemyRespawnTimers)
  {
    hide BoxV, BoxRow, ActorV, ActorRow, RosterV, RosterRow;
    forall i | 0 <= i < |w.environment.collisionBoxes| { BoxFields(w.environment.collisionBoxes[i]); }
    forall i | 0 <= i < |w.enemies| { ActorFields(w.enemies[i]); }
    forall i | 0 <= i < |w.roster| { RosterFields(w.roster[i]); }
    ListFields<CollisionBox>(BoxV, BoxRow, w.environment.collisionBoxes);
    ListFields<RemoteActorState<F32>>(ActorV, ActorRow, w.enemies);
    ListFields(RosterV, RosterRow, w.roster);
    ListFields<U64>(IndexV, IndexRow, w.enemyWaypointIndices);
    ListFields<F32>(N32, TimerRow, w.enemyRespawnTimers);
  }

  lemma ClockFields(w: WorldState)
    ensures Fields(CadenceV(w.cadence)) + Fields(TimeV(w.authoritativeTime)) == ClockRows(w)
  {
    Unnested();
    hide Fields;
  }

  lemma SessionFields(s: TeamScores, m: SessionMetadata)
    ensures Fields(SessionV(s, m)) == SessionRows(s, m)
  {
    Unnested();
    hide Fields;
  }

  lemma WorldFields(w: WorldState)
    ensures Fields(WorldV(w)) == WorldRows(w)
  {
    Unnested();
    WorldListsFields(w);
    PlayersFields(w.players);
    VectorsFields(w.playerSpawns);
    VectorsFields(w.enemySpawns);
    ClockFields(w);
    SessionFields(w.teamScores, w.sessionMetadata);
    hide Fields, CadenceV, TimeV, SessionV, ClockRows, SessionRows, ListOf, Listed;
    WorldRegroups(
      [Whole(4, w.environment.arenaHalfSize)] + Listed(BoxRow, w.environment.collisionBoxes),
      Fields(CadenceV(w.cadence)), Fields(TimeV(w.authoritativeTime)), Listed(PlayerRow, w.players),
      Listed(ActorRow, w.enemies), Listed(RosterRow, w.roster), SessionRows(w.teamScores, w.sessionMetadata),
      Listed(VectorRow, w.playerSpawns), Listed(VectorRow, w.enemySpawns), Listed(IndexRow, w.enemyWaypointIndices),
      Listed(TimerRow, w.enemyRespawnTimers));
  }

  lemma Regroup<T>(a: seq<T>, b: seq<T>, c: seq<T>)
    ensures (a + b) + c == a + (b + c)
  {
  }

  lemma WorldRegroups<T>(
    a: seq<T>, b: seq<T>, c: seq<T>, d: seq<T>, e: seq<T>, f: seq<T>, g: seq<T>, h: seq<T>, i: seq<T>, j: seq<T>,
    k: seq<T>
  )
    ensures (a + b + c + d) + (e + f + g + h) + i + (j + k) == a + (b + c) + (d + e + f) + g + (h + i + j + k)
  {
    Regroup(a, b, c);
    var x := a + (b + c);
    Regroup(x, d, e + f + g + h);
    Regroup(d, e + f + g, h);
    Regroup(d, e + f, g);
    Regroup(d, e, f);
    var y := d + e + f;
    assert d + (e + f + g + h) == y + g + h;
    Regroup(x, y + g, h);
    Regroup(x, y, g);
    var z := x + y + g;
    assert (a + b + c + d) + (e + f + g + h) == z + h;
    Regroup(z, h, i);
    Regroup(z, h + i, j + k);
    Regroup(h + i, j, k);
  }

  lemma KeyframeFields(k: WorldKeyframe)
    ensures Fields(KeyframeV(k)) == KeyframeRows(k)
  {
    Unnested();
    hide Fields;
    WorldFields(k.worldState);
    PlayersFields(k.controlPlayers);
    hide WorldV, WorldRows, PlayerV, PlayerRow, ListOf, Listed;
  }

  lemma PolicyFields(h: Header)
    requires Supported(h.formatVersion)
    ensures Fields(PolicyForV(h.formatVersion, h.policy)) == PolicyRows(h)
  {
    Unnested();
    hide Fields;
  }

  lemma OriginFields(h: Header)
    ensures [Whole(4, h.formatVersion)] + Fields(IdentityV(h))
          + Fields(VPair(N64(h.startedServerTimeUs), N64(h.durationUs)))
         == OriginRows(h)
  {
    Unnested();
    hide Fields;
  }

  lemma LabelFields(h: Header)
    ensures Fields(VPair(VBool(h.hasControlLane), VBool(h.hasClientPerceptionTracks)))
          + Fields(VPair(VStr(h.title), VStr(h.sourceLabel)))
         == [Flag(h.hasControlLane), Flag(h.hasClientPerceptionTracks), Text(h.title), Text(h.sourceLabel)]
  {
    Unnested();
    hide Fields;
  }

  lemma HeaderFields(h: Header)
    requires Supported(h.formatVersion)
    ensures Fields(HeaderV(h)) == HeaderRows(h)
  {
    PolicyFields(h);
    OriginFields(h);
    LabelFields(h);
    var times := VPair(N64(h.startedServerTimeUs), N64(h.durationUs));
    var flags := VPair(VBool(h.hasControlLane), VBool(h.hasClientPerceptionTracks));
    var labels := VPair(VStr(h.title), VStr(h.sourceLabel));
    var policy := PolicyForV(h.formatVersion, h.policy);
    assert Fields(VPair(IdentityV(h), BackV(h))) == Fields(IdentityV(h)) + Fields(BackV(h));
    assert Fields(BackV(h)) == Fields(times) + Fields(policy) + Fields(flags) + Fields(labels);
    assert Fields(HeaderV(h)) == [Whole(4, h.formatVersion)] + Fields(VPair(IdentityV(h), BackV(h)));
    hide Fields, PolicyForV, PolicyRows, OriginRows, IdentityV, BackV;
    HeaderRegroups([Whole(4, h.formatVersion)], Fields(IdentityV(h)), Fields(times), Fields(policy), Fields(flags),
                   Fields(labels));
  }

  lemma HeaderRegroups<T>(a: seq<T>, b: seq<T>, c: seq<T>, d: seq<T>, e: seq<T>, f: seq<T>)
    ensures a + (b + (c + d + e + f)) == (a + b + c) + d + (e + f)
  {
    Regroup(c + d, e, f);
    Regroup(c, d, e + f);
    var x := d + (e + f);
    Regroup(b, c, x);
    Regroup(a, b + c, x);
    Regroup(a, b, c);
    Regroup(a + b + c, d, e + f);
  }

  lemma EventsFields(d: Demo)
    ensures Fields(EventsV(d)) == EventRows(d)
  {
    Unnested();
    hide Fields;
    hide CommandEventV, CommandEventRow, RuntimeEventV, RuntimeEventRow, CombatEventV, CombatEventRow;
    hide KeyframeV, KeyframeRows, TrackV, TrackRows, ListOf, Listed;
    forall i | 0 <= i < |d.commandEvents| { CommandEventFields(d.commandEvents[i]); }
    forall i | 0 <= i < |d.runtimeEvents| { RuntimeEventFields(d.runtimeEvents[i]); }
    forall i | 0 <= i < |d.combatEvents| { CombatEventFields(d.combatEvents[i]); }
    forall i | 0 <= i < |d.keyframes| { KeyframeFields(d.keyframes[i]); }
    forall i | 0 <= i < |d.clientTracks| { TrackFields(d.clientTracks[i]); }
    ListFields(CommandEventV, CommandEventRow, d.commandEvents);
    ListFields(RuntimeEventV, RuntimeEventRow, d.runtimeEvents);
    ListFields(CombatEventV, CombatEventRow, d.combatEvents);
    ListFields(KeyframeV, KeyframeRows, d.keyframes);
    ListFields(TrackV, TrackRows, d.clientTracks);
  }

  lemma MagicLetters()
    ensures Written([Whole(4, MAGIC)]) == Written([Whole(1, 0x4E), Whole(1, 0x43), Whole(1, 0x4D), Whole(1, 0x44)])
  {
    assert Range(0) == 1 && Range(1) == 0x100 && Range(2) == 0x1_0000 && Range(3) == 0x100_0000;
    assert Digits(4, MAGIC) == [0x4E, 0x43, 0x4D, 0x44];
    var m := [Whole(1, 0x4E), Whole(1, 0x43), Whole(1, 0x4D), Whole(1, 0x44)];
    assert m[1..] == [m[1], m[2], m[3]] && m[1..][1..] == [m[2], m[3]];
    assert Digits(1, 0x4E) == [0x4E] && Digits(1, 0x43) == [0x43];
    assert Digits(1, 0x4D) == [0x4D] && Digits(1, 0x44) == [0x44];
    WrittenJoins([m[0], m[1]], [m[2], m[3]]);
    assert m == [m[0], m[1]] + [m[2], m[3]];
  }

  lemma DemoFields(d: Demo)
    requires Supported(d.header.formatVersion)
    ensures Fields(DemoV(d)) ==
            [Whole(4, MAGIC)]
            + (HeaderRows(d.header) + ConstantRows(d.simConfig) + WorldRows(d.worldState) + EventRows(d))
  {
    HeaderFields(d.header);
    ConstantFields(d.simConfig);
    WorldFields(d.worldState);
    EventsFields(d);
    var h, c, w := HeaderV(d.header), SimConfigV(d.simConfig), WorldV(d.worldState);
    assert Fields(VQuad(N32(MAGIC), h, c, w)) == [Whole(4, MAGIC)] + Fields(h) + Fields(c) + Fields(w);
    assert Fields(DemoV(d)) == Fields(VQuad(N32(MAGIC), h, c, w)) + Fields(EventsV(d));
    hide Fields, HeaderV, HeaderRows, SimConfigV, ConstantRows, WorldV, WorldRows, EventsV, EventRows;
    FiveRegroup([Whole(4, MAGIC)], HeaderRows(d.header), ConstantRows(d.simConfig), WorldRows(d.worldState),
                EventRows(d));
  }

  /** A saved demo is its table, written field after field. */
  lemma ImageIsTable(d: Demo)
    requires Supported(d.header.formatVersion)
    ensures Image(d) == Written(DemoRows(d))
  {
    EmitIsWritten(DemoV(d), []);
    DemoFields(d);
    var letters := [Whole(1, 0x4E), Whole(1, 0x43), Whole(1, 0x4D), Whole(1, 0x44)];
    var a, b, c, e := HeaderRows(d.header), ConstantRows(d.simConfig), WorldRows(d.worldState), EventRows(d);
    assert Image(d) == Emit(DemoV(d), []);
    assert DemoRows(d) == letters + a + b + c + e;
    hide Fields, DemoV, HeaderRows, ConstantRows, WorldRows, EventRows, Written, Emit;
    FiveRegroup(letters, a, b, c, e);
    WrittenJoins([Whole(4, MAGIC)], a + b + c + e);
    WrittenJoins(letters, a + b + c + e);
    MagicLetters();
  }
}
