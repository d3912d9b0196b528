/**
 The client's interpolation against the server's rewind: what the two give of an enemy at one time, from the worlds the
 server records and the snapshots of them the client receives.
 */
module ShootWhatYouSaw {
  import opened Geometry
  import opened Paths
  import opened SimTypes
  import opened Timeline
  import Client = InterpolationBuffer
  import ClientLaws = InterpolationLaws
  import Server = LagCompensation
  import ServerLaws = RewindLaws

  /** The fixed lift of an enemy's hit centre over its position. */
  function Lift(axis: Axis): real {
    if axis == Y then Server.ENEMY_BODY_HEIGHT * 0.5 else 0.0
  }

  /** The server's history of an enemy whose recorded states are `f`. */
  function TargetsOf(f: seq<Client.ActorSample>): (r: seq<Server.RewindSample>)
    ensures |r| == |f|
    ensures forall i :: 0 <= i < |f| ==> r[i] == Sample(f[i].serverTimeUs, Server.RemoteActorTarget(f[i].value))
  {
    seq(|f|, i requires 0 <= i < |f| => Sample(f[i].serverTimeUs, Server.RemoteActorTarget(f[i].value)))
  }

  // ---------------------------------------------------------------------------------------------
  // The same snapshots on both sides

  /** The hit target `target` is the enemy `shown` on the screen. */
  ghost predicate AimedAt(shown: Client.Actor, target: Server.HitscanTarget) {
    target.radius == shown.radius && forall axis :: At(target.center, axis) == At(shown.position, axis) + Lift(axis)
  }

  lemma NewestAimedAt(shown: Client.Actor)
    ensures AimedAt(shown, Server.RemoteActorTarget(shown))
  {
  }

  lemma InterpolatedAimedAt(from: Client.ActorSample, to: Client.ActorSample, t: nat)
    requires from.serverTimeUs < t
    ensures AimedAt(
      Client.InterpolateState(from, to, t),
      Server.InterpolateTarget(Sample(from.serverTimeUs, Server.RemoteActorTarget(from.value)),
                               Sample(to.serverTimeUs, Server.RemoteActorTarget(to.value)), t))
  {
    if from.serverTimeUs < to.serverTimeUs {
      var alpha := Alpha(from.serverTimeUs, to.serverTimeUs, t);
      LerpLift(from.value.position.y, to.value.position.y, Server.ENEMY_BODY_HEIGHT * 0.5, alpha);
    }
  }

  lemma LerpLift(a: real, b: real, lift: real, alpha: real)
    ensures Lerp(a + lift, b + lift, alpha) == Lerp(a, b, alpha) + lift
  {
  }

  /** Two states in one place: all of a state that a shot is tested against. */
  predicate SamePlace(a: Client.Actor, b: Client.Actor) {
    a.position == b.position && a.radius == b.radius
  }

  /** Where a log has the enemy at `t`: between its states, and before the first one where that one is. */
  function PlaceAt(f: seq<Client.ActorSample>, t: nat): Client.Actor
    requires f != []
  {
    if t <= f[0].serverTimeUs then f[0].value else Client.SampleAt(f, t)
  }

  /** A target that is one enemy is another one exactly when the two are in one place. */
  lemma AimedAtOne(shown: Client.Actor, other: Client.Actor, target: Server.HitscanTarget)
    requires AimedAt(other, target)
    ensures AimedAt(shown, target) <==> SamePlace(shown, other)
  {
    if AimedAt(shown, target) {
      assert At(shown.position, X) == At(other.position, X);
      assert At(shown.position, Y) == At(other.position, Y);
      assert At(shown.position, Z) == At(other.position, Z);
    }
  }

  /**
   If the client's and the server's history of an enemy are ends of the same log, then wherever each side cut its
   history the rewound target is the enemy the client shows exactly when the state shown is in the place the log
   has at that time, or at the server's first sample when that is later.  From the server's first sample on this
   always holds after the client's first sample, and up to that one exactly when the newest state is there.
   */
  lemma SameLogSameTarget(f: seq<Client.ActorSample>, p: seq<Client.ActorSample>, q: seq<Server.RewindSample>, t: nat)
    requires Increasing(f) && SuffixOf(p, f) && SuffixOf(q, TargetsOf(f)) && p != [] && q != []
    ensures AimedAt(Client.SampleAt(p, t), Server.RewindAt(q, t))
       <==> SamePlace(Client.SampleAt(p, t), PlaceAt(f, Max(t, q[0].serverTimeUs)))
    ensures q[0].serverTimeUs <= t ==>
              (AimedAt(Client.SampleAt(p, t), Server.RewindAt(q, t))
               <==> p[0].serverTimeUs < t || SamePlace(Last(p).value, PlaceAt(f, t)))
    ensures SamePlace(PlaceAt(f, p[0].serverTimeUs), p[0].value)
  {
    hide AimedAt, Client.SampleAt, Server.RewindAt, PlaceAt, SamePlace;
    var u := Max(t, q[0].serverTimeUs);
    ServerLaws.PruningInvisible(q, TargetsOf(f), t);
    LogPlace(f, u);
    AimedAtOne(Client.SampleAt(p, t), PlaceAt(f, u), Server.RewindAt(TargetsOf(f), u));
    if p[0].serverTimeUs < t {
      LogSameTarget(f, p, t);
    } else {
      NewestShown(p, t);
    }
    LogPlaceAtSample(f, |f| - |p|);
  }

  /** Outside the window of its samples the client shows the newest one. */
  lemma NewestShown(p: seq<Client.ActorSample>, t: nat)
    requires p != [] && (t <= p[0].serverTimeUs || t >= Last(p).serverTimeUs)
    ensures Client.SampleAt(p, t) == Last(p).value
  {
  }

  /** The server's whole log rewinds an enemy to where the log has it. */
  lemma LogPlace(f: seq<Client.ActorSample>, t: nat)
    requires Increasing(f) && f != []
    ensures AimedAt(PlaceAt(f, t), Server.RewindAt(TargetsOf(f), t))
  {
    hide AimedAt, Client.SampleAt, Server.RemoteActorTarget;
    if t <= f[0].serverTimeUs {
      NewestAimedAt(f[0].value);
    } else {
      hide Server.RewindAt;
      LogSameTarget(f, f, t);
    }
  }

  lemma LogPlaceAtSample(f: seq<Client.ActorSample>, k: nat)
    requires Increasing(f) && k < |f|
    ensures SamePlace(PlaceAt(f, f[k].serverTimeUs), f[k].value)
  {
    hide AimedAt, PlaceAt, SamePlace, Server.RewindAt, Server.RemoteActorTarget;
    var t := f[k].serverTimeUs;
    LogPlace(f, t);
    ServerLaws.RewindAtSample(TargetsOf(f), k);
    NewestAimedAt(f[k].value);
    AimedAtOne(PlaceAt(f, t), f[k].value, Server.RewindAt(TargetsOf(f), t));
    AimedAtOne(f[k].value, PlaceAt(f, t), Server.RewindAt(TargetsOf(f), t));
  }

  /** The whole log at times after the client's first sample. */
  lemma LogSameTarget(f: seq<Client.ActorSample>, p: seq<Client.ActorSample>, t: nat)
    requires Increasing(f) && SuffixOf(p, f) && p != [] && p[0].serverTimeUs < t
    ensures AimedAt(Client.SampleAt(p, t), Server.RewindAt(TargetsOf(f), t))
  {
    hide AimedAt, Client.SampleAt, Server.RewindAt, Server.RemoteActorTarget;
    if t >= Last(p).serverTimeUs {
      BeyondNewest(f, p, t);
      NewestAimedAt(Last(p).value);
    } else {
      var i := BracketExists(p, t);
      BetweenSamples(f, p, t, i);
    }
  }

  lemma BeyondNewest(f: seq<Client.ActorSample>, p: seq<Client.ActorSample>, t: nat)
    requires Increasing(f) && SuffixOf(p, f) && p != [] && p[0].serverTimeUs < t && t >= Last(p).serverTimeUs
    ensures Client.SampleAt(p, t) == Last(p).value
    ensures f != [] && Server.RewindAt(TargetsOf(f), t) == Server.RemoteActorTarget(Last(p).value)
  {
    hide Server.RemoteActorTarget, Client.InterpolateState, Server.InterpolateTarget, Search, TargetsOf;
    var g := TargetsOf(f);
    assert Last(p) == Last(f) && p[0] == f[|f| - |p|];
    assert g[0].serverTimeUs == f[0].serverTimeUs <= p[0].serverTimeUs;
    assert Last(g) == Sample(Last(f).serverTimeUs, Server.RemoteActorTarget(Last(f).value));
    ServerLaws.RewindAfterLast(g, t);
  }

  lemma BetweenSamples(f: seq<Client.ActorSample>, p: seq<Client.ActorSample>, t: nat, i: nat)
    requires Increasing(f) && SuffixOf(p, f) && Brackets(p, t, i) && t < Last(p).serverTimeUs
    ensures f != [] && AimedAt(Client.SampleAt(p, t), Server.RewindAt(TargetsOf(f), t))
  {
    hide AimedAt, Client.SampleAt, Server.RewindAt, Server.RemoteActorTarget, Client.InterpolateState,
         Server.InterpolateTarget;
    var j := |f| - |p| + i;
    BracketShifts(p, f, t, i);
    ClientLaws.SampleInBracket(p, t, i);
    assert Brackets(TargetsOf(f), t, j);
    ServerLaws.RewindInBracket(TargetsOf(f), t, j);
    InterpolatedAimedAt(f[j - 1], f[j], t);
  }

  // ---------------------------------------------------------------------------------------------
  // Whole runs

  datatype World = World(timeUs: nat, players: seq<PlayerState<real>>, enemies: seq<Client.Actor>)

  function ServerEvent(w: World, simConfig: SimConfig<real>): ServerLaws.Event {
    ServerLaws.Recorded(Server.WorldTargets(w.players, w.enemies, simConfig), w.timeUs)
  }

  function ServerEvents(worlds: seq<World>, simConfig: SimConfig<real>): seq<ServerLaws.Event> {
    if worlds == [] then []
    else ServerEvents(worlds[..|worlds| - 1], simConfig) + [ServerEvent(worlds[|worlds| - 1], simConfig)]
  }

  function ClientEvents(snapshots: seq<World>): seq<ClientLaws.Event> {
    if snapshots == [] then []
    else
      var w := snapshots[|snapshots| - 1];
      ClientEvents(snapshots[..|snapshots| - 1]) + [ClientLaws.Snapshot(w.timeUs, w.enemies)]
  }

  ghost predicate NoPlayerNamed(worlds: seq<World>, id: int) {
    forall w, p :: w in worlds && p in w.players ==> p.playerId != id
  }

  /** The server's full history of an entity, before any pruning. */
  function ServerLog(worlds: seq<World>, config: Server.Config, simConfig: SimConfig<real>, id: int)
    : seq<Server.RewindSample>
  {
    HistoryOf(ServerLaws.FullRun(config, ServerEvents(worlds, simConfig)).histories, id)
  }

  function ClientLog(snapshots: seq<World>, id: int): seq<Client.ActorSample> {
    HistoryOf(ClientLaws.Log(ClientEvents(snapshots)), id)
  }

  /** An id no player has is found among the targets where it is among the enemies. */
  lemma FirstTargetIsEnemy(w: World, simConfig: SimConfig<real>, id: int)
    requires forall p :: p in w.players ==> p.playerId != id
    ensures var ts := Server.WorldTargets(w.players, w.enemies, simConfig);
      var i := FirstIndex(ClientLaws.IdOf, w.enemies, id);
      FirstIndex(ServerLaws.IdOf, ts, id) == |w.players| + i
      && (i < |w.enemies| ==> ts[|w.players| + i] == Server.RemoteActorTarget(w.enemies[i]))
  {
    hide Server.PlayerTarget, Server.RemoteActorTarget, Server.WorldTargets, FirstIndex;
    var ts, n := Server.WorldTargets(w.players, w.enemies, simConfig), |w.players|;
    var i := FirstIndex(ClientLaws.IdOf, w.enemies, id);
    forall j | 0 <= j < n + i
      ensures ServerLaws.IdOf(ts[j]) != id
    {
      if j < n {
        assert w.players[j] in w.players;
      } else {
        assert ts[n + (j - n)] == Server.RemoteActorTarget(w.enemies[j - n]);
        assert ClientLaws.IdOf(w.enemies[j - n]) != id;
      }
    }
    FirstIs(ServerLaws.IdOf, ts, id, n + i);
  }

  lemma FullRunGrows(worlds: seq<World>, config: Server.Config, simConfig: SimConfig<real>)
    requires worlds != []
    ensures var w := worlds[|worlds| - 1];
      ServerLaws.FullRun(config, ServerEvents(worlds, simConfig)).histories
      == KeepAll(ServerLaws.FullRun(config, ServerEvents(worlds[..|worlds| - 1], simConfig)).histories,
                 ServerLaws.IdOf, Server.WorldTargets(w.players, w.enemies, simConfig), w.timeUs)
  {
    hide Server.WorldTargets, KeepAll;
    var events := ServerEvents(worlds, simConfig);
    assert events[..|events| - 1] == ServerEvents(worlds[..|worlds| - 1], simConfig);
  }

  lemma ServerLogGrows(worlds: seq<World>, config: Server.Config, simConfig: SimConfig<real>, id: int)
    requires worlds != [] && NoPlayerNamed(worlds, id)
    ensures var w, log := worlds[|worlds| - 1], ServerLog(worlds[..|worlds| - 1], config, simConfig, id);
      var i := FirstIndex(ClientLaws.IdOf, w.enemies, id);
      ServerLog(worlds, config, simConfig, id)
      == if i < |w.enemies| && Accepts(log, w.timeUs)
         then log + [Sample(w.timeUs, Server.RemoteActorTarget(w.enemies[i]))] else log
  {
    hide Server.RemoteActorTarget, Server.WorldTargets, FirstIndex, KeepAll, ServerLaws.FullRun, ServerEvents;
    var init, w := worlds[..|worlds| - 1], worlds[|worlds| - 1];
    FullRunGrows(worlds, config, simConfig);
    LonePlayers(worlds, id);
    FirstTargetIsEnemy(w, simConfig, id);
    hide NoPlayerNamed;
    KeepAllAddsFirst(ServerLaws.FullRun(config, ServerEvents(init, simConfig)).histories, ServerLaws.IdOf,
                     Server.WorldTargets(w.players, w.enemies, simConfig), w.timeUs, id);
  }

  lemma LonePlayers(worlds: seq<World>, id: int)
    requires worlds != [] && NoPlayerNamed(worlds, id)
    ensures forall p :: p in worlds[|worlds| - 1].players ==> p.playerId != id
  {
    assert worlds[|worlds| - 1] in worlds;
  }

  lemma ClientLogGrows(snapshots: seq<World>, id: int)
    requires snapshots != []
    ensures var w, log := snapshots[|snapshots| - 1], ClientLog(snapshots[..|snapshots| - 1], id);
      var i := FirstIndex(ClientLaws.IdOf, w.enemies, id);
      ClientLog(snapshots, id)
      == if i < |w.enemies| && Accepts(log, w.timeUs) then log + [Sample(w.timeUs, w.enemies[i])] else log
  {
    var init, w := snapshots[..|snapshots| - 1], snapshots[|snapshots| - 1];
    var events := ClientEvents(snapshots);
    assert events[..|events| - 1] == ClientEvents(init);
    KeepAllAddsFirst(ClientLaws.Log(ClientEvents(init)), ClientLaws.IdOf, w.enemies, w.timeUs, id);
  }

  lemma {:induction false} SameWorldsSameLog(
    worlds: seq<World>, config: Server.Config, simConfig: SimConfig<real>, id: int
  )
    requires NoPlayerNamed(worlds, id)
    ensures ServerLog(worlds, config, simConfig, id) == TargetsOf(ClientLog(worlds, id))
  {
    hide ServerLog, ClientLog, Server.RemoteActorTarget;
    if worlds == [] {
      EmptyLogs(config, simConfig, id);
    } else {
      SameWorldsSameLog(worlds[..|worlds| - 1], config, simConfig, id);
      ServerLogGrows(worlds, config, simConfig, id);
      ClientLogGrows(worlds, id);
    }
  }

  lemma EmptyLogs(config: Server.Config, simConfig: SimConfig<real>, id: int)
    ensures ServerLog([], config, simConfig, id) == [] && ClientLog([], id) == []
  {
  }

  /** What the client holds of an enemy after receiving `snapshots`. */
  function Seen(snapshots: seq<World>, config: Client.Config, id: int): seq<Client.ActorSample> {
    HistoryOf(ClientLaws.Run(config, ClientEvents(snapshots)).histories, id)
  }

  /** What the server holds of an entity after simulating `worlds`. */
  function Held(worlds: seq<World>, config: Server.Config, simConfig: SimConfig<real>, id: int)
    : seq<Server.RewindSample>
  {
    HistoryOf(ServerLaws.Run(config, ServerEvents(worlds, simConfig)).histories, id)
  }

  lemma SeenStands(snapshots: seq<World>, config: Client.Config, id: int)
    requires config.maxSamplesPerEntity > 0
    ensures StandsFor(Seen(snapshots, config, id), ClientLog(snapshots, id))
  {
    ClientLaws.RunStandsForLog(config, ClientEvents(snapshots));
  }

  lemma HeldStands(worlds: seq<World>, config: Server.Config, simConfig: SimConfig<real>, id: int)
    requires config.maxSamplesPerEntity > 0
    ensures StandsFor(Held(worlds, config, simConfig, id), ServerLog(worlds, config, simConfig, id))
  {
    OnlyRecorded(worlds, simConfig);
    ServerLaws.RunStands(config, ServerEvents(worlds, simConfig));
  }

  lemma {:induction false} OnlyRecorded(worlds: seq<World>, simConfig: SimConfig<real>)
    ensures forall e :: e in ServerEvents(worlds, simConfig) ==> e.Recorded?
  {
    if worlds != [] {
      OnlyRecorded(worlds[..|worlds| - 1], simConfig);
    }
  }

  /**
   A client that received every world and a server that simulated them, each with its own limits: for every
   enemy whose id no player has, at every time not before the oldest sample of either side, the rewound target is
   the enemy the client shows exactly when the time is after the client's oldest sample, or the newest state is
   where that oldest one is.  Before the client's oldest sample the client shows the newest state, and the two
   agree exactly when the worlds have the enemy there; before the server's, exactly when the state shown is where
   the server's oldest sample is.
   */
  lemma YouHitWhatYouSee(
    worlds: seq<World>, clientConfig: Client.Config, serverConfig: Server.Config, simConfig: SimConfig<real>,
    id: int, t: nat
  )
    requires clientConfig.maxSamplesPerEntity > 0 && serverConfig.maxSamplesPerEntity > 0
    requires NoPlayerNamed(worlds, id)
    ensures var p, q, f :=
        Seen(worlds, clientConfig, id), Held(worlds, serverConfig, simConfig, id), ClientLog(worlds, id);
      (p == [] <==> q == []) && (p == [] <==> f == [])
      && (p != [] ==>
            var shown, first := Client.SampleAt(p, t), p[0];
            var hit := AimedAt(shown, Server.RewindAt(q, t));
            (q[0].serverTimeUs <= t && first.serverTimeUs <= t ==>
               (hit <==> first.serverTimeUs < t || SamePlace(Last(p).value, first.value)))
            && (q[0].serverTimeUs <= t < first.serverTimeUs ==>
                  shown == Last(p).value && (hit <==> SamePlace(shown, PlaceAt(f, t))))
            && (t < q[0].serverTimeUs ==> (hit <==> SamePlace(shown, PlaceAt(f, q[0].serverTimeUs)))))
  {
    hide Seen, Held, ServerLog, ClientLog, AimedAt, Client.SampleAt, Server.RewindAt, SamePlace, PlaceAt;
    var p, q := Seen(worlds, clientConfig, id), Held(worlds, serverConfig, simConfig, id);
    var f := ClientLog(worlds, id);
    SeenStands(worlds, clientConfig, id);
    HeldStands(worlds, serverConfig, simConfig, id);
    SameWorldsSameLog(worlds, serverConfig, simConfig, id);
    if p != [] {
      SameLogSameTarget(f, p, q, t);
      if t <= p[0].serverTimeUs {
        NewestShown(p, t);
        SamePlaceAs(Last(p).value, PlaceAt(f, p[0].serverTimeUs), p[0].value);
      }
    }
  }

  lemma SamePlaceAs(a: Client.Actor, b: Client.Actor, c: Client.Actor)
    requires SamePlace(b, c)
    ensures SamePlace(a, b) <==> SamePlace(a, c)
  {
  }

  /**
   Two worlds in which an enemy moves without a teleport, and sides that keep both: at the time of the first world
   the client shows where the enemy went and the server rewinds to where it was, so that shot misses.
   */
  lemma FirstSampleDiffers(
    a: Client.Actor, b: Client.Actor, start: nat, end: nat, clientConfig: Client.Config,
    serverConfig: Server.Config, simConfig: SimConfig<real>
  )
    requires a.entityId == b.entityId && start < end <= start + serverConfig.maxRewindUs
    requires clientConfig.maxSamplesPerEntity >= 2 && serverConfig.maxSamplesPerEntity >= 2
    requires !SamePlace(b, a) && !Client.Teleported(clientConfig, a, b)
    ensures var worlds := [World(start, [], [a]), World(end, [], [b])];
      var p, q := Seen(worlds, clientConfig, a.entityId), Held(worlds, serverConfig, simConfig, a.entityId);
      p == [Sample(start, a), Sample(end, b)] && q == TargetsOf(p)
      && Client.SampleAt(p, start) == b && Server.RewindAt(q, start) == Server.RemoteActorTarget(a)
      && !AimedAt(Client.SampleAt(p, start), Server.RewindAt(q, start))
  {
    hide AimedAt, SamePlace, Client.Teleported, Server.RemoteActorTarget, Client.SampleAt, Server.RewindAt;
    var p := [Sample(start, a), Sample(end, b)];
    SeenTwo(a, b, start, end, clientConfig);
    HeldTwo(a, b, start, end, serverConfig, simConfig);
    SameLogSameTarget(p, p, TargetsOf(p), start);
    NewestShown(p, start);
    SamePlaceAs(b, PlaceAt(p, start), a);
    ServerLaws.RewindAtSample(TargetsOf(p), 0);
  }

  lemma SeenTwo(a: Client.Actor, b: Client.Actor, start: nat, end: nat, config: Client.Config)
    requires a.entityId == b.entityId && start < end && config.maxSamplesPerEntity >= 2
    requires !Client.Teleported(config, a, b)
    ensures Seen([World(start, [], [a]), World(end, [], [b])], config, a.entityId) == [Sample(start, a), Sample(end, b)]
  {
    hide Client.Teleported, ClientLaws.Run, ClientLaws.Step;
    var w0, w1 := World(start, [], [a]), World(end, [], [b]);
    var e0, e1 := ClientLaws.Snapshot(start, [a]), ClientLaws.Snapshot(end, [b]);
    assert [w0, w1][..1] == [w0] && [w0][..0] == [];
    assert ClientEvents([w0]) == [e0];
    assert ClientEvents([w0, w1]) == [e0, e1];
    ClientLaws.SeesTwo(config, a, b, start, end);
  }

  lemma HeldTwo(
    a: Client.Actor, b: Client.Actor, start: nat, end: nat, config: Server.Config, simConfig: SimConfig<real>
  )
    requires a.entityId == b.entityId && start < end <= start + config.maxRewindUs && config.maxSamplesPerEntity >= 2
    ensures Held([World(start, [], [a]), World(end, [], [b])], config, simConfig, a.entityId)
         == TargetsOf([Sample(start, a), Sample(end, b)])
  {
    hide Server.RemoteActorTarget, ServerLaws.Run, ServerEvent;
    var w0, w1 := World(start, [], [a]), World(end, [], [b]);
    var x, y := Server.RemoteActorTarget(a), Server.RemoteActorTarget(b);
    var e0, e1 := ServerLaws.Recorded([x], start), ServerLaws.Recorded([y], end);
    LoneEnemy(start, a, simConfig);
    LoneEnemy(end, b, simConfig);
    assert [w0, w1][..1] == [w0] && [w0][..0] == [];
    assert ServerEvents([w0], simConfig) == [e0];
    assert ServerEvents([w0, w1], simConfig) == [e0, e1];
    ServerLaws.RecordsTwo(config, x, y, start, end);
    assert [e0] + [e1] == [e0, e1];
    assert [Sample(start, x)] + [Sample(end, y)] == TargetsOf([Sample(start, a), Sample(end, b)]);
  }

  lemma LoneEnemy(t: nat, enemy: Client.Actor, simConfig: SimConfig<real>)
    ensures ServerEvent(World(t, [], [enemy]), simConfig) == ServerLaws.Recorded([Server.RemoteActorTarget(enemy)], t)
  {
    hide Server.RemoteActorTarget;
    assert Server.WorldTargets([], [enemy], simConfig) == [Server.RemoteActorTarget(enemy)];
  }

  // ---------------------------------------------------------------------------------------------
  // Lost, repeated and overtaken snapshots

  /** World `k` is later than every one before it. */
  ghost predicate FirstOfItsTime(worlds: seq<World>, k: nat) {
    k < |worlds| && forall j :: 0 <= j < k ==> worlds[j].timeUs < worlds[k].timeUs
  }

  /** Every snapshot is one of the worlds, and the first of its time. */
  ghost predicate Delivered(snapshots: seq<World>, worlds: seq<World>) {
    forall w :: w in snapshots ==> exists k: nat :: FirstOfItsTime(worlds, k) && worlds[k] == w
  }

  /** Every sample of `p` is one of `f`. */
  ghost predicate KnownTo(p: seq<Client.ActorSample>, f: seq<Client.ActorSample>) {
    forall i :: 0 <= i < |p| ==> p[i] in f
  }

  lemma {:induction false} LogBefore(worlds: seq<World>, id: int, t: nat)
    requires forall w :: w in worlds ==> w.timeUs < t
    ensures Accepts(ClientLog(worlds, id), t)
  {
    if worlds != [] {
      hide ClientLog;
      LogBefore(worlds[..|worlds| - 1], id, t);
      ClientLogGrows(worlds, id);
      assert worlds[|worlds| - 1] in worlds;
    }
  }

  /** The first world of a time is in the log. */
  lemma {:induction false} LogKnowsWorld(worlds: seq<World>, id: int, k: nat)
    requires FirstOfItsTime(worlds, k)
    ensures var w := worlds[k];
      var i := FirstIndex(ClientLaws.IdOf, w.enemies, id);
      i < |w.enemies| ==> Sample(w.timeUs, w.enemies[i]) in ClientLog(worlds, id)
  {
    hide ClientLog, FirstIndex;
    var init := worlds[..|worlds| - 1];
    ClientLogGrows(worlds, id);
    if k < |init| {
      LogKnowsWorld(init, id, k);
    } else {
      LogBefore(init, id, worlds[k].timeUs);
    }
  }

  lemma {:induction false} ClientLogKnown(snapshots: seq<World>, worlds: seq<World>, id: int)
    requires Delivered(snapshots, worlds)
    ensures KnownTo(ClientLog(snapshots, id), ClientLog(worlds, id))
  {
    if snapshots == [] {
      assert ClientLog([], id) == [];
    } else {
      hide ClientLog, FirstIndex;
      var init, w := snapshots[..|snapshots| - 1], snapshots[|snapshots| - 1];
      assert w in snapshots && forall x :: x in init ==> x in snapshots;
      ClientLogKnown(init, worlds, id);
      ClientLogGrows(snapshots, id);
      var k: nat :| FirstOfItsTime(worlds, k) && worlds[k] == w;
      LogKnowsWorld(worlds, id, k);
    }
  }

  /** What the client holds of an enemy is in the log of the worlds. */
  lemma SeenKnown(snapshots: seq<World>, worlds: seq<World>, config: Client.Config, id: int)
    requires config.maxSamplesPerEntity > 0 && Delivered(snapshots, worlds)
    ensures KnownTo(Seen(snapshots, config, id), ClientLog(worlds, id)) && Increasing(Seen(snapshots, config, id))
  {
    hide Seen, ClientLog, Delivered;
    var p, f := Seen(snapshots, config, id), ClientLog(snapshots, id);
    SeenStands(snapshots, config, id);
    ClientLogKnown(snapshots, worlds, id);
    assert forall i :: 0 <= i < |p| ==> p[i] == f[|f| - |p| + i];
  }

  /**
   Why the first: of two worlds of one time, as when an edit or a join is recorded just before a tick, the server keeps
   the first, and a client that is sent the second sees another state than the one it is tested against.
   */
  lemma SecondOfItsTimeLost(
    first: World, second: World, config: Server.Config, simConfig: SimConfig<real>, a: Client.Actor, b: Client.Actor
  )
    requires first.timeUs == second.timeUs && first.enemies == [a] && second.enemies == [b]
    requires a.entityId == b.entityId && NoPlayerNamed([first, second], a.entityId)
    ensures ServerLog([first, second], config, simConfig, a.entityId) == TargetsOf([Sample(first.timeUs, a)])
    ensures ClientLog([second], a.entityId) == [Sample(first.timeUs, b)]
    ensures AimedAt(b, Server.RewindAt(TargetsOf([Sample(first.timeUs, a)]), first.timeUs)) <==> SamePlace(b, a)
  {
    hide ServerLog, ClientLog, AimedAt, SamePlace, Server.RemoteActorTarget, FirstIndex;
    var id := a.entityId;
    EmptyLogs(config, simConfig, id);
    assert [second][..0] == [] && [first][..0] == [] && [first, second][..1] == [first];
    assert ClientLaws.IdOf(a) == id && ClientLaws.IdOf(b) == id;
    FirstIs(ClientLaws.IdOf, [a], id, 0);
    FirstIs(ClientLaws.IdOf, [b], id, 0);
    ClientLogGrows([second], id);
    ClientLogGrows([first], id);
    ClientLogGrows([first, second], id);
    SameWorldsSameLog([first, second], config, simConfig, id);
    NewestAimedAt(a);
    AimedAtOne(b, a, Server.RemoteActorTarget(a));
  }

  /** The server's path goes through every sample it knows. */
  lemma PathThroughKnown(g: seq<Server.RewindSample>, s: Server.RewindSample, axis: Axis)
    requires Increasing(g) && s in g
    ensures Path(ServerLaws.Coordinates(g, axis), s.serverTimeUs) == At(s.value.center, axis)
  {
    var k :| 0 <= k < |g| && g[k] == s;
    ServerLaws.RewindAtSample(g, k);
    ServerLaws.RewindIsPath(g, s.serverTimeUs, axis);
  }

  /** The server's sample of the client's one. */
  ghost predicate Knows(g: seq<Server.RewindSample>, s: Client.ActorSample) {
    Sample(s.serverTimeUs, Server.RemoteActorTarget(s.value)) in g
  }

  ghost predicate AllKnown(p: seq<Client.ActorSample>, g: seq<Server.RewindSample>) {
    forall i :: 0 <= i < |p| ==> Knows(g, p[i])
  }

  lemma TargetsKnown(p: seq<Client.ActorSample>, f: seq<Client.ActorSample>)
    requires KnownTo(p, f)
    ensures AllKnown(p, TargetsOf(f))
    ensures p != [] ==> f != []
  {
    hide Server.RemoteActorTarget;
    forall i | 0 <= i < |p|
      ensures Knows(TargetsOf(f), p[i])
    {
      var k :| 0 <= k < |f| && f[k] == p[i];
      assert TargetsOf(f)[k] == Sample(f[k].serverTimeUs, Server.RemoteActorTarget(f[k].value));
    }
    if p != [] {
      assert p[0] in f;
    }
  }

  /** How far apart two times are. */
  function Apart(t: nat, u: nat): (r: nat)
    ensures r == if t < u then u - t else t - u
  {
    if t < u then u - t else t - u
  }

  lemma CloseToNewest(g: seq<Server.RewindSample>, t: nat, axis: Axis, v: real, to: Client.ActorSample)
    requires Increasing(g) && Knows(g, to)
    requires v >= 0.0 && SpeedAtMost(ServerLaws.Coordinates(g, axis), v)
    ensures Abs(At(Server.RewindAt(g, t).center, axis) - (At(to.value.position, axis) + Lift(axis)))
         <= v * Apart(t, to.serverTimeUs) as real
  {
    hide SpeedAtMost, Path, Server.RewindAt, ServerLaws.Coordinates;
    PathThroughKnown(g, Sample(to.serverTimeUs, Server.RemoteActorTarget(to.value)), axis);
    ServerLaws.RewindIsPath(g, t, axis);
    if t < to.serverTimeUs {
      PathLipschitz(ServerLaws.Coordinates(g, axis), v, t, to.serverTimeUs);
    } else {
      PathLipschitz(ServerLaws.Coordinates(g, axis), v, to.serverTimeUs, t);
    }
  }

  lemma CloseBetween(
    g: seq<Server.RewindSample>, t: nat, axis: Axis, v: real, from: Client.ActorSample, to: Client.ActorSample
  )
    requires Increasing(g) && Knows(g, from) && Knows(g, to) && from.serverTimeUs < t <= to.serverTimeUs
    requires v >= 0.0 && SpeedAtMost(ServerLaws.Coordinates(g, axis), v)
    ensures Abs(At(Server.RewindAt(g, t).center, axis) - (At(Client.InterpolateState(from, to, t).position,
        axis) + Lift(axis)))
         <= v * (to.serverTimeUs - from.serverTimeUs) as real / 2.0
  {
    hide SpeedAtMost, Path, Abs, Lerp, Alpha, Server.RewindAt, ServerLaws.Coordinates, Lift, At,
         Server.RemoteActorTarget, Client.InterpolateState;
    PathThroughKnown(g, Sample(from.serverTimeUs, Server.RemoteActorTarget(from.value)), axis);
    PathThroughKnown(g, Sample(to.serverTimeUs, Server.RemoteActorTarget(to.value)), axis);
    ServerLaws.RewindIsPath(g, t, axis);
    PathNearChord(ServerLaws.Coordinates(g, axis), v, from.serverTimeUs, t, to.serverTimeUs);
    ShownOnChord(from, to, t, axis);
  }

  lemma ShownOnChord(from: Client.ActorSample, to: Client.ActorSample, t: nat, axis: Axis)
    requires from.serverTimeUs < t && from.serverTimeUs < to.serverTimeUs
    ensures At(Client.InterpolateState(from, to, t).position, axis) + Lift(axis)
         == Lerp(At(Server.RemoteActorTarget(from.value).center, axis),
                 At(Server.RemoteActorTarget(to.value).center, axis), Alpha(from.serverTimeUs, to.serverTimeUs, t))
  {
    LerpLift(from.value.position.y, to.value.position.y, Server.ENEMY_BODY_HEIGHT * 0.5,
             Alpha(from.serverTimeUs, to.serverTimeUs, t));
  }

  /**
   A client that received any snapshots of the worlds, lost, repeated or out of order: where no coordinate of the
   enemy moved faster than `v` between the worlds, the rewound centre is off the shown position plus the lift by
   at most half of `v` times the gap between the client's two samples around the time, and outside the window of
   its samples by at most `v` times the time from there to the newest one.
   */
  lemma YouHitNearWhatYouSee(
    worlds: seq<World>, snapshots: seq<World>, clientConfig: Client.Config, serverConfig: Server.Config,
    simConfig: SimConfig<real>, id: int, t: nat, axis: Axis, v: real
  )
    requires clientConfig.maxSamplesPerEntity > 0 && serverConfig.maxSamplesPerEntity > 0
    requires NoPlayerNamed(worlds, id) && Delivered(snapshots, worlds)
    requires v >= 0.0
    requires SpeedAtMost(ServerLaws.Coordinates(ServerLog(worlds, serverConfig, simConfig, id), axis), v)
    ensures var p, q := Seen(snapshots, clientConfig, id), Held(worlds, serverConfig, simConfig, id);
      p != [] ==>
        q != []
        && (q[0].serverTimeUs <= t ==> Off(p, q, t, axis) <= Slack(p, t, v))
  {
    hide Seen, Held, ServerLog, ClientLog, SpeedAtMost, Off, Slack, KnownTo, AllKnown;
    var p, q := Seen(snapshots, clientConfig, id), Held(worlds, serverConfig, simConfig, id);
    var f := ClientLog(worlds, id);
    SeenKnown(snapshots, worlds, clientConfig, id);
    HeldStands(worlds, serverConfig, simConfig, id);
    SameWorldsSameLog(worlds, serverConfig, simConfig, id);
    TargetsKnown(p, f);
    if p != [] && q[0].serverTimeUs <= t {
      OffServed(p, q, TargetsOf(f), t, axis);
      CloseToShown(p, TargetsOf(f), t, axis, v);
    }
  }

  /** How far the shown position may be off at `t`, at a speed of `v`. */
  function Slack(p: seq<Client.ActorSample>, t: nat, v: real): real
    requires p != []
  {
    if p[0].serverTimeUs < t < Last(p).serverTimeUs then v * GapAround(p, t) as real / 2.0
    else v * Apart(t, Last(p).serverTimeUs) as real
  }

  lemma CloseToShown(
    p: seq<Client.ActorSample>, g: seq<Server.RewindSample>, t: nat, axis: Axis, v: real
  )
    requires p != [] && g != [] && Increasing(p) && Increasing(g) && AllKnown(p, g)
    requires v >= 0.0 && SpeedAtMost(ServerLaws.Coordinates(g, axis), v)
    ensures Off(p, g, t, axis) <= Slack(p, t, v)
  {
    hide Off, GapAround, SpeedAtMost, AllKnown;
    if p[0].serverTimeUs < t < Last(p).serverTimeUs {
      CloseInside(p, g, t, axis, v);
    } else {
      CloseOutside(p, g, t, axis, v);
    }
  }

  /** How far the rewound centre is off the shown position plus the lift. */
  function Off(p: seq<Client.ActorSample>, q: seq<Server.RewindSample>, t: nat, axis: Axis): real
    requires p != [] && q != []
  {
    Abs(At(Server.RewindAt(q, t).center, axis) - (At(Client.SampleAt(p, t).position, axis) + Lift(axis)))
  }

  /** What the server pruned does not matter. */
  lemma OffServed(
    p: seq<Client.ActorSample>, q: seq<Server.RewindSample>, g: seq<Server.RewindSample>, t: nat, axis: Axis
  )
    requires p != [] && q != [] && Increasing(g) && SuffixOf(q, g) && q[0].serverTimeUs <= t
    ensures g != [] && Off(p, q, t, axis) == Off(p, g, t, axis)
  {
    hide Server.RewindAt, Client.SampleAt;
    ServerLaws.PruningInvisible(q, g, t);
  }

  /** The time between the two samples around `t`. */
  function GapAround(p: seq<Client.ActorSample>, t: nat): int
    requires p != []
  {
    var i := Search(p, t, 1);
    if i < |p| then p[i].serverTimeUs - p[i - 1].serverTimeUs else 0
  }

  lemma CloseInside(
    p: seq<Client.ActorSample>, g: seq<Server.RewindSample>, t: nat, axis: Axis, v: real
  )
    requires p != [] && g != [] && Increasing(p) && Increasing(g) && AllKnown(p, g)
    requires p[0].serverTimeUs < t < Last(p).serverTimeUs
    requires v >= 0.0 && SpeedAtMost(ServerLaws.Coordinates(g, axis), v)
    ensures Off(p, g, t, axis) <= v * GapAround(p, t) as real / 2.0
  {
    hide SpeedAtMost, Abs, Server.RewindAt, Client.SampleAt, ServerLaws.Coordinates, Lift, At, Increasing,
         Server.RemoteActorTarget, Client.InterpolateState, Search;
    var i := BracketExists(p, t);
    SearchFinds(p, t, 1, i);
    ClientLaws.SampleInBracket(p, t, i);
    CloseBetween(g, t, axis, v, p[i - 1], p[i]);
  }

  lemma CloseOutside(
    p: seq<Client.ActorSample>, g: seq<Server.RewindSample>, t: nat, axis: Axis, v: real
  )
    requires p != [] && g != [] && Increasing(g) && AllKnown(p, g)
    requires t <= p[0].serverTimeUs || t >= Last(p).serverTimeUs
    requires v >= 0.0 && SpeedAtMost(ServerLaws.Coordinates(g, axis), v)
    ensures Off(p, g, t, axis) <= v * Apart(t, Last(p).serverTimeUs) as real
  {
    hide SpeedAtMost, Abs, Server.RewindAt, Client.SampleAt, ServerLaws.Coordinates, Lift, At, Increasing,
         Server.RemoteActorTarget, Apart;
    NewestShown(p, t);
    CloseToNewest(g, t, axis, v, Last(p));
  }
}
