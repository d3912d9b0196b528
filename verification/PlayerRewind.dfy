/** The server's rewind of players: where the hit target of a player was, from the worlds alone. */
module PlayerRewind {
  import opened Geometry
  import opened Paths
  import opened ShootWhatYouSaw
  import opened SimTypes
  import opened Timeline

  type Player = PlayerState<real>
  type PlayerSample = Sample<Player>

  function PlayerIdOf(p: Player): int {
    p.playerId
  }

  ghost predicate NoEnemyNamed(worlds: seq<World>, id: int) {
    forall w, e :: w in worlds && e in w.enemies ==> e.entityId != id
  }

  /** The states of a player that the server takes: the first under its id of every world of a new time. */
  function PlayerLog(worlds: seq<World>, id: int): seq<PlayerSample> {
    if worlds == [] then []
    else
      var log, w := PlayerLog(worlds[..|worlds| - 1], id), worlds[|worlds| - 1];
      var i := FirstIndex(PlayerIdOf, w.players, id);
      if i < |w.players| && Accepts(log, w.timeUs) then log + [Sample(w.timeUs, w.players[i])] else log
  }

  function PlayerTargetsOf(f: seq<PlayerSample>, simConfig: SimConfig<real>): (r: seq<Server.RewindSample>)
    ensures |r| == |f|
    ensures forall i :: 0 <= i < |f| ==> r[i] == Sample(f[i].serverTimeUs, Server.PlayerTarget(f[i].value, simConfig))
  {
    seq(|f|, i requires 0 <= i < |f| => Sample(f[i].serverTimeUs, Server.PlayerTarget(f[i].value, simConfig)))
  }

  /** An id no enemy has is found among the targets where it is among the players. */
  lemma FirstTargetIsPlayer(w: World, simConfig: SimConfig<real>, id: int)
    requires forall e :: e in w.enemies ==> e.entityId != id
    ensures var ts := Server.WorldTargets(w.players, w.enemies, simConfig);
      var i, k := FirstIndex(PlayerIdOf, w.players, id), FirstIndex(ServerLaws.IdOf, ts, id);
      if i < |w.players| then k == i && ts[k] == Server.PlayerTarget(w.players[i], simConfig) else k == |ts|
  {
    hide Server.PlayerTarget, Server.RemoteActorTarget, Server.WorldTargets, FirstIndex;
    var ts, n := Server.WorldTargets(w.players, w.enemies, simConfig), |w.players|;
    var i := FirstIndex(PlayerIdOf, w.players, id);
    var k := if i < n then i else |ts|;
    forall j | 0 <= j < k
      ensures ServerLaws.IdOf(ts[j]) != id
    {
      if j < n {
        assert ts[j] == Server.PlayerTarget(w.players[j], simConfig) && PlayerIdOf(w.players[j]) != id;
      } else {
        assert ts[n + (j - n)] == Server.RemoteActorTarget(w.enemies[j - n]) && w.enemies[j - n] in w.enemies;
      }
    }
    FirstIs(ServerLaws.IdOf, ts, id, k);
  }

  lemma {:induction false} PlayerLogHeld(worlds: seq<World>, config: Server.Config, simConfig: SimConfig<real>, id: int)
    requires NoEnemyNamed(worlds, id)
    ensures ServerLog(worlds, config, simConfig, id) == PlayerTargetsOf(PlayerLog(worlds, id), simConfig)
  {
    hide ServerLog, PlayerTargetsOf;
    if worlds == [] {
      EmptyLogs(config, simConfig, id);
    } else {
      PlayerLogHeld(worlds[..|worlds| - 1], config, simConfig, id);
      PlayerLogGrows(worlds, config, simConfig, id);
    }
  }

  lemma ServerLogGrowsByPlayer(worlds: seq<World>, config: Server.Config, simConfig: SimConfig<real>, id: int)
    requires worlds != [] && NoEnemyNamed(worlds, id)
    ensures var w, log := worlds[|worlds| - 1], ServerLog(worlds[..|worlds| - 1], config, simConfig, id);
      var i := FirstIndex(PlayerIdOf, w.players, id);
      ServerLog(worlds, config, simConfig, id)
      == if i < |w.players| && Accepts(log, w.timeUs)
         then log + [Sample(w.timeUs, Server.PlayerTarget(w.players[i], simConfig))] else log
  {
    hide Server.PlayerTarget, Server.WorldTargets, FirstIndex, KeepAll, ServerLaws.FullRun, ServerEvents;
    var init, w := worlds[..|worlds| - 1], worlds[|worlds| - 1];
    assert w in worlds;
    FullRunGrows(worlds, config, simConfig);
    FirstTargetIsPlayer(w, simConfig, id);
    hide NoEnemyNamed;
    KeepAllAddsFirst(ServerLaws.FullRun(config, ServerEvents(init, simConfig)).histories, ServerLaws.IdOf,
                     Server.WorldTargets(w.players, w.enemies, simConfig), w.timeUs, id);
  }

  lemma PlayerLogGrows(worlds: seq<World>, config: Server.Config, simConfig: SimConfig<real>, id: int)
    requires worlds != [] && NoEnemyNamed(worlds, id)
    requires var init := worlds[..|worlds| - 1];
      ServerLog(init, config, simConfig, id) == PlayerTargetsOf(PlayerLog(init, id), simConfig)
    ensures ServerLog(worlds, config, simConfig, id) == PlayerTargetsOf(PlayerLog(worlds, id), simConfig)
  {
    ServerLogGrowsByPlayer(worlds, config, simConfig, id);
    hide Server.PlayerTarget, FirstIndex, ServerLog, NoEnemyNamed, PlayerTargetsOf, Accepts;
    var log, w := PlayerLog(worlds[..|worlds| - 1], id), worlds[|worlds| - 1];
    var i := FirstIndex(PlayerIdOf, w.players, id);
    if i < |w.players| {
      TargetsGrow(log, simConfig, Sample(w.timeUs, w.players[i]));
    }
  }

  lemma TargetsGrow(log: seq<PlayerSample>, simConfig: SimConfig<real>, s: PlayerSample)
    ensures Accepts(PlayerTargetsOf(log, simConfig), s.serverTimeUs) <==> Accepts(log, s.serverTimeUs)
    ensures PlayerTargetsOf(log + [s], simConfig)
         == PlayerTargetsOf(log, simConfig) + [Sample(s.serverTimeUs, Server.PlayerTarget(s.value, simConfig))]
  {
    hide Server.PlayerTarget;
  }

  lemma {:induction false} PlayerLogIncreases(worlds: seq<World>, id: int)
    ensures Increasing(PlayerLog(worlds, id))
  {
    if worlds != [] {
      hide FirstIndex;
      PlayerLogIncreases(worlds[..|worlds| - 1], id);
    }
  }

  // ---------------------------------------------------------------------------------------------
  // What the target of a player is

  /** How far the centre of a player's target is from its eyes: half its height above its feet. */
  function PlayerLift(simConfig: SimConfig<real>, axis: Axis): real {
    if axis == Y then simConfig.playerCollisionHeight / 2.0 - simConfig.playerEyeHeight else 0.0
  }

  function Eyes(f: seq<PlayerSample>, axis: Axis): (r: seq<Sample<real>>)
    ensures |r| == |f|
    ensures forall i :: 0 <= i < |f| ==> r[i] == Sample(f[i].serverTimeUs, At(f[i].value.position, axis))
  {
    seq(|f|, i requires 0 <= i < |f| => Sample(f[i].serverTimeUs, At(f[i].value.position, axis)))
  }

  /** A path of shifted samples is the shifted path. */
  lemma {:induction false} PathShifted(h: seq<Sample<real>>, k: seq<Sample<real>>, lift: real, t: nat)
    requires h != [] && |k| == |h| && Increasing(h)
    requires forall i :: 0 <= i < |h| ==> k[i] == Sample(h[i].serverTimeUs, h[i].value + lift)
    ensures Path(k, t) == Path(h, t) + lift
  {
    if |h| > 1 && t > h[0].serverTimeUs {
      if t <= h[1].serverTimeUs {
        LerpLift(h[0].value, h[1].value, lift, Alpha(h[0].serverTimeUs, h[1].serverTimeUs, t));
      } else {
        PathShifted(h[1..], k[1..], lift, t);
      }
    }
  }

  /** A path of samples of one value stays there. */
  lemma {:induction false} PathConstant(h: seq<Sample<real>>, value: real, t: nat)
    requires h != [] && Increasing(h) && forall i :: 0 <= i < |h| ==> h[i].value == value
    ensures Path(h, t) == value
  {
    if |h| > 1 && t > h[0].serverTimeUs && t > h[1].serverTimeUs {
      PathConstant(h[1..], value, t);
    }
  }

  lemma {:induction false} PlayerNotBefore(f: seq<PlayerSample>, simConfig: SimConfig<real>, t: nat)
    requires f != []
    ensures NotBefore(PlayerTargetsOf(f, simConfig), t) == Server.PlayerTarget(NotBefore(f, t), simConfig)
  {
    hide Server.PlayerTarget;
    if |f| > 1 && t > f[0].serverTimeUs {
      assert PlayerTargetsOf(f, simConfig)[1..] == PlayerTargetsOf(f[1..], simConfig);
      PlayerNotBefore(f[1..], simConfig, t);
    }
  }

  /**
   The rewound target of a player whose id no enemy has, from the worlds alone: its centre is on the path of the
   player's eyes, lifted or lowered to half its height, its radius is the larger of the player's own and half its
   height, and it is alive exactly when the first state not before the time, or the newest, has health.
   */
  lemma PlayerRewound(
    worlds: seq<World>, config: Server.Config, simConfig: SimConfig<real>, id: int, t: nat, axis: Axis
  )
    requires config.maxSamplesPerEntity > 0 && NoEnemyNamed(worlds, id) && PlayerLog(worlds, id) != []
    ensures var f, q := PlayerLog(worlds, id), Held(worlds, config, simConfig, id);
      q != []
      && var u, target := Max(t, q[0].serverTimeUs), Server.RewindAt(q, t);
         At(target.center, axis) == Path(Eyes(f, axis), u) + PlayerLift(simConfig, axis)
         && target.entityId == NotBefore(f, u).playerId
         && (target.alive <==> NotBefore(f, u).health > 0.0)
         && target.radius >= simConfig.playerRadius && target.radius >= simConfig.playerCollisionHeight / 2.0
         && (target.radius == simConfig.playerRadius || target.radius == simConfig.playerCollisionHeight / 2.0)
  {
    hide PlayerLog, Held, ServerLog, Server.RewindAt, Path, NotBefore, Max, StandsFor, Increasing;
    var f, q := PlayerLog(worlds, id), Held(worlds, config, simConfig, id);
    var g := PlayerTargetsOf(f, simConfig);
    PlayerLogHeld(worlds, config, simConfig, id);
    PlayerLogIncreases(worlds, id);
    HeldStands(worlds, config, simConfig, id);
    SameNewest(q, g);
    StandsInvisible(q, g, t);
    PlayerRewoundInLog(f, simConfig, Max(t, q[0].serverTimeUs), axis);
  }

  lemma StandsInvisible(q: seq<Server.RewindSample>, g: seq<Server.RewindSample>, t: nat)
    requires StandsFor(q, g) && q != []
    ensures g != [] && Increasing(g) && Server.RewindAt(q, t) == Server.RewindAt(g, Max(t, q[0].serverTimeUs))
  {
    ServerLaws.PruningInvisible(q, g, t);
  }

  lemma PlayerRewoundInLog(f: seq<PlayerSample>, simConfig: SimConfig<real>, u: nat, axis: Axis)
    requires f != [] && Increasing(f)
    ensures var target := Server.RewindAt(PlayerTargetsOf(f, simConfig), u);
      At(target.center, axis) == Path(Eyes(f, axis), u) + PlayerLift(simConfig, axis)
      && target.entityId == NotBefore(f, u).playerId
      && (target.alive <==> NotBefore(f, u).health > 0.0)
      && target.radius >= simConfig.playerRadius && target.radius >= simConfig.playerCollisionHeight / 2.0
      && (target.radius == simConfig.playerRadius || target.radius == simConfig.playerCollisionHeight / 2.0)
  {
    hide Server.RewindAt, Path, NotBefore;
    var g := PlayerTargetsOf(f, simConfig);
    assert Increasing(g);
    ServerLaws.RewindIsPath(g, u, axis);
    PathShifted(Eyes(f, axis), ServerLaws.Coordinates(g, axis), PlayerLift(simConfig, axis), u);
    ServerLaws.RewindRadiusIsPath(g, u);
    PathConstant(ServerLaws.Radii(g), g[0].value.radius, u);
    ServerLaws.RewindFlags(g, u);
    PlayerNotBefore(f, simConfig, u);
  }
}
