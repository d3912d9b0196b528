/**
 The server's lag compensation: per entity, the recent hit targets, pruned by age and by count, and the query
 that rewinds every entity to a requested time.
 */
module LagCompensation {
  import opened Collections
  import opened Geometry
  import opened Paths
  import opened SimTypes
  import opened Timeline

  const ENEMY_BODY_HEIGHT := 1.6

  datatype HitscanTarget = HitscanTarget(entityId: int, center: Point, radius: real, alive: bool)

  type RewindSample = Sample<HitscanTarget>

  datatype Config = Config(maxRewindUs: nat, maxSamplesPerEntity: nat)

  // ---------------------------------------------------------------------------------------------
  // Targets

  function PlayerTarget(p: PlayerState<real>, config: SimConfig<real>): (r: HitscanTarget)
    ensures r.entityId == p.playerId
  {
    var half := config.playerCollisionHeight * 0.5;
    HitscanTarget(
      p.playerId,
      p.position.(y := p.position.y - config.playerEyeHeight + half),
      if config.playerRadius < half then half else config.playerRadius,
      p.health > 0.0)
  }

  function RemoteActorTarget(a: RemoteActorState<real>): (r: HitscanTarget)
    ensures r.entityId == a.entityId
  {
    HitscanTarget(
      a.entityId,
      a.position.(y := a.position.y + ENEMY_BODY_HEIGHT * 0.5),
      a.radius,
      a.alive && a.health > 0.0)
  }

  /** The targets of a world, players first. */
  function WorldTargets(
    players: seq<PlayerState<real>>, enemies: seq<RemoteActorState<real>>, config: SimConfig<real>
  ): (ts: seq<HitscanTarget>)
    ensures |ts| == |players| + |enemies|
    ensures forall i :: 0 <= i < |players| ==> ts[i] == PlayerTarget(players[i], config)
    ensures forall i :: 0 <= i < |enemies| ==> ts[|players| + i] == RemoteActorTarget(enemies[i])
  {
    seq(|players|, i requires 0 <= i < |players| => PlayerTarget(players[i], config))
    + seq(|enemies|, i requires 0 <= i < |enemies| => RemoteActorTarget(enemies[i]))
  }

  // ---------------------------------------------------------------------------------------------
  // Rewinding one entity

  function InterpolateTarget(from: RewindSample, to: RewindSample, t: nat): HitscanTarget
    requires from.serverTimeUs <= t
  {
    if to.serverTimeUs <= from.serverTimeUs then to.value
    else
      var alpha := Alpha(from.serverTimeUs, to.serverTimeUs, t);
      to.value.(
        center := LerpVec3(from.value.center, to.value.center, alpha),
        radius := Lerp(from.value.radius, to.value.radius, alpha))
  }

  /** Where the entity of a history was at `t`. */
  function RewindAt(h: seq<RewindSample>, t: nat): HitscanTarget
    requires h != []
  {
    if |h| == 1 then Last(h).value
    else if t <= h[0].serverTimeUs then h[0].value
    else if t >= Last(h).serverTimeUs then Last(h).value
    else
      var i := Search(h, t, 1);
      if i < |h| then InterpolateTarget(h[i - 1], h[i], t) else Last(h).value
  }

  // ---------------------------------------------------------------------------------------------
  // Pruning

  /** Drops samples from the front while the second one is already at or before `earliest`. */
  function Aged(h: seq<RewindSample>, earliest: nat): (r: seq<RewindSample>)
    ensures SuffixOf(r, h) && (h != [] ==> r != [])
  {
    if |h| > 1 && h[1].serverTimeUs <= earliest then Aged(h[1..], earliest) else h
  }

  function AgedAt(h: seq<RewindSample>, config: Config, latest: nat): (r: seq<RewindSample>)
    ensures SuffixOf(r, h) && (h != [] ==> r != [])
  {
    if latest > config.maxRewindUs then Aged(h, latest - config.maxRewindUs) else h
  }

  function Pruned(h: seq<RewindSample>, config: Config, latest: nat): (r: seq<RewindSample>)
    ensures SuffixOf(r, h) && |r| <= config.maxSamplesPerEntity
  {
    Capped(AgedAt(h, config, latest), config.maxSamplesPerEntity)
  }

  // ---------------------------------------------------------------------------------------------
  // The service

  type TargetHistories = Histories<HitscanTarget>

  datatype Service = Service(config: Config, histories: TargetHistories, order: seq<int>)

  function RecordTarget(hs: TargetHistories, config: Config, target: HitscanTarget, t: nat): TargetHistories {
    var h := HistoryOf(hs, target.entityId);
    if Accepts(h, t) then hs[target.entityId := Pruned(h + [Sample(t, target)], config, t)] else hs
  }

  function RecordTargets(hs: TargetHistories, config: Config, targets: seq<HitscanTarget>, t: nat): TargetHistories {
    if targets == [] then hs
    else RecordTarget(RecordTargets(hs, config, targets[..|targets| - 1], t), config, targets[|targets| - 1], t)
  }

  function Ids(targets: seq<HitscanTarget>): (r: seq<int>)
    ensures |r| == |targets| && forall i :: 0 <= i < |r| ==> r[i] == targets[i].entityId
  {
    seq(|targets|, i requires 0 <= i < |targets| => targets[i].entityId)
  }

  function Record(s: Service, targets: seq<HitscanTarget>, t: nat): Service {
    s.(histories := RecordTargets(s.histories, s.config, targets, t), order := Ids(targets))
  }

  function RecordedOne(s: Service, target: HitscanTarget, t: nat): Service {
    s.(histories := RecordTarget(s.histories, s.config, target, t), order := s.order + [target.entityId])
  }

  lemma RecordsNone(s: Service, targets: seq<HitscanTarget>, t: nat)
    ensures Record(s, targets[..0], t) == s.(order := [])
  {
  }

  lemma RecordsOneMore(s: Service, targets: seq<HitscanTarget>, k: nat, t: nat)
    requires k < |targets|
    ensures Record(s, targets[..k + 1], t) == RecordedOne(Record(s, targets[..k], t), targets[k], t)
  {
    hide RecordTarget;
    assert targets[..k + 1][..k] == targets[..k];
    assert Ids(targets[..k + 1]) == Ids(targets[..k]) + [targets[k].entityId];
  }

  function Reconfigured(s: Service, config: Config, latest: nat): Service {
    Service(config, map id | id in s.histories :: Pruned(s.histories[id], config, latest), s.order)
  }

  /** The requested time, moved to the nearer end of the rewind window when it is outside. */
  function ClampRewindTime(config: Config, requested: nat, current: nat): (r: nat)
    ensures r <= current <= r + config.maxRewindUs
    ensures requested <= current <= requested + config.maxRewindUs ==> r == requested
    ensures requested > current ==> r == current
    ensures requested + config.maxRewindUs < current ==> r + config.maxRewindUs == current
  {
    if current > config.maxRewindUs && requested < current - config.maxRewindUs then current - config.maxRewindUs
    else if requested < current then requested
    else current
  }

  /** The rewound targets of the entities of `order`, those without a history left out. */
  function RewindAll(hs: TargetHistories, order: seq<int>, t: nat): seq<HitscanTarget> {
    if order == [] then []
    else
      var init := RewindAll(hs, order[..|order| - 1], t);
      var h := HistoryOf(hs, order[|order| - 1]);
      if h == [] then init else init + [RewindAt(h, t)]
  }

  function Rewind(s: Service, requested: nat, current: nat): seq<HitscanTarget> {
    RewindAll(s.histories, s.order, ClampRewindTime(s.config, requested, current))
  }

  // ---------------------------------------------------------------------------------------------
  // The code

  method PruneExpiredSamples(history: seq<RewindSample>, config: Config, latest: nat)
    returns (pruned: seq<RewindSample>)
    ensures pruned == Pruned(history, config, latest)
  {
    hide Capped, SuffixOf;
    pruned := history;
    if history == [] {
      return;
    }
    if latest > config.maxRewindUs {
      var earliest := latest - config.maxRewindUs;
      while |pruned| > 1 && pruned[1].serverTimeUs <= earliest
        invariant Aged(pruned, earliest) == Aged(history, earliest)
        decreases |pruned|
      {
        pruned := pruned[1..];
      }
    }
    pruned := EvictOverCap(pruned, config.maxSamplesPerEntity);
  }

  class LagCompensationService {
    var config: Config
    var histories: TargetHistories
    var latestEntityOrder: seq<int>

    function State(): Service
      reads this
    {
      Service(config, histories, latestEntityOrder)
    }

    constructor (config: Config)
      ensures State() == Service(config, map[], [])
    {
      this.config, histories, latestEntityOrder := config, map[], [];
    }

    method Reset()
      modifies this
      ensures State() == Service(old(config), map[], [])
    {
      histories, latestEntityOrder := map[], [];
    }

    method Reconfigure(newConfig: Config, latest: nat)
      modifies this
      ensures State() == Reconfigured(old(State()), newConfig, latest)
    {
      hide Pruned, SuffixOf;
      config := newConfig;
      ghost var before := histories;
      var todo := histories.Keys;
      while todo != {}
        invariant todo <= histories.Keys == before.Keys
        invariant config == newConfig && latestEntityOrder == old(latestEntityOrder)
        invariant forall id :: id in before && id in todo ==> histories[id] == before[id]
        invariant forall id :: id in before && id !in todo ==> histories[id] == Pruned(before[id], config, latest)
        decreases |todo|
      {
        var id := AnyOf(todo);
        var pruned := PruneExpiredSamples(histories[id], config, latest);
        histories := histories[id := pruned];
        todo := todo - {id};
      }
      assert forall id :: id in before ==> histories[id] == Pruned(before[id], config, latest);
    }

    method RecordWorldState(
      players: seq<PlayerState<real>>, enemies: seq<RemoteActorState<real>>, simConfig: SimConfig<real>, t: nat
    )
      modifies this
      ensures State() == Record(old(State()), WorldTargets(players, enemies, simConfig), t)
    {
      hide Record, RecordedOne, WorldTargets, PlayerTarget, RemoteActorTarget;
      latestEntityOrder := [];
      ghost var start := old(State());
      ghost var targets := WorldTargets(players, enemies, simConfig);
      RecordsNone(start, targets, t);
      for i := 0 to |players|
        invariant State() == Record(start, targets[..i], t)
      {
        RecordsOneMore(start, targets, i, t);
        RecordEntity(PlayerTarget(players[i], simConfig), t);
      }
      for i := 0 to |enemies|
        invariant State() == Record(start, targets[..|players| + i], t)
      {
        RecordsOneMore(start, targets, |players| + i, t);
        RecordEntity(RemoteActorTarget(enemies[i]), t);
      }
      assert targets[..|targets|] == targets;
    }

    /** The body both loops of the recording share. */
    method RecordEntity(target: HitscanTarget, t: nat)
      modifies this
      ensures State() == RecordedOne(old(State()), target, t)
    {
      hide Pruned, SuffixOf;
      var id := target.entityId;
      latestEntityOrder := latestEntityOrder + [id];
      var history := HistoryOf(histories, id);
      if !Accepts(history, t) {
        return;
      }
      var pruned := PruneExpiredSamples(history + [Sample(t, target)], config, t);
      histories := histories[id := pruned];
    }

    method RewindTargets(requested: nat, current: nat) returns (targets: seq<HitscanTarget>)
      ensures targets == Rewind(State(), requested, current)
    {
      var t := ClampRewindTime(config, requested, current);
      targets := [];
      for k := 0 to |latestEntityOrder|
        invariant targets == RewindAll(histories, latestEntityOrder[..k], t)
      {
        assert latestEntityOrder[..k + 1][..k] == latestEntityOrder[..k];
        var id := latestEntityOrder[k];
        if id !in histories || histories[id] == [] {
          continue;
        }
        var history := histories[id];
        if |history| == 1 {
          targets := targets + [Last(history).value];
          continue;
        }
        if t <= history[0].serverTimeUs {
          targets := targets + [history[0].value];
          continue;
        }
        if t >= Last(history).serverTimeUs {
          targets := targets + [Last(history).value];
          continue;
        }
        var index := 1;
        while index < |history| && !(history[index - 1].serverTimeUs <= t <= history[index].serverTimeUs)
          invariant 1 <= index <= |history| && Search(history, t, index) == Search(history, t, 1)
        {
          index := index + 1;
        }
        if index < |history| {
          targets := targets + [InterpolateTarget(history[index - 1], history[index], t)];
        } else {
          targets := targets + [Last(history).value];
        }
      }
      assert latestEntityOrder[..|latestEntityOrder|] == latestEntityOrder;
    }
  }
}
