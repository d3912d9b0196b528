/**
 The client's interpolation buffer: per enemy, the recent snapshots, cut at teleports and capped, and the query
 that shows every enemy at a past server time.
 */
module InterpolationBuffer {
  import opened Geometry
  import opened Paths
  import opened SimTypes
  import opened Timeline

  type Actor = RemoteActorState<real>
  type ActorSample = Sample<Actor>
  type ActorHistories = Histories<Actor>

  datatype Config = Config(maxSamplesPerEntity: nat, teleportDistance: real)

  datatype Buffer = Buffer(histories: ActorHistories, order: seq<int>)

  // ---------------------------------------------------------------------------------------------
  // Pushing

  predicate Teleported(config: Config, from: Actor, to: Actor) {
    Beyond(DistanceSquared(from.position, to.position), config.teleportDistance)
  }

  /** The history a new state of the entity is appended to. */
  function Continued(h: seq<ActorSample>, config: Config, entity: Actor): (r: seq<ActorSample>)
    ensures r == h || r == []
  {
    if h != [] && Teleported(config, Last(h).value, entity) then [] else h
  }

  function PushEntity(hs: ActorHistories, config: Config, entity: Actor, t: nat): ActorHistories {
    var h := HistoryOf(hs, entity.entityId);
    if Accepts(h, t) then
      hs[entity.entityId := Capped(Continued(h, config, entity) + [Sample(t, entity)], config.maxSamplesPerEntity)]
    else hs
  }

  function PushEntities(hs: ActorHistories, config: Config, entities: seq<Actor>, t: nat): ActorHistories {
    if entities == [] then hs
    else PushEntity(PushEntities(hs, config, entities[..|entities| - 1], t), config, entities[|entities| - 1], t)
  }

  function EntityIds(entities: seq<Actor>): (r: seq<int>)
    ensures |r| == |entities| && forall i :: 0 <= i < |r| ==> r[i] == entities[i].entityId
  {
    seq(|entities|, i requires 0 <= i < |entities| => entities[i].entityId)
  }

  function Push(b: Buffer, config: Config, entities: seq<Actor>, t: nat): Buffer {
    Buffer(PushEntities(b.histories, config, entities, t), EntityIds(entities))
  }

  // ---------------------------------------------------------------------------------------------
  // Sampling

  function InterpolateState(from: ActorSample, to: ActorSample, t: nat): Actor
    requires from.serverTimeUs <= t
  {
    if to.serverTimeUs <= from.serverTimeUs then to.value
    else
      var alpha := Alpha(from.serverTimeUs, to.serverTimeUs, t);
      to.value.(
        position := LerpVec3(from.value.position, to.value.position, alpha),
        velocity := LerpVec3(from.value.velocity, to.value.velocity, alpha),
        yaw := Lerp(from.value.yaw, to.value.yaw, alpha),
        pitch := Lerp(from.value.pitch, to.value.pitch, alpha),
        health := Lerp(from.value.health, to.value.health, alpha),
        radius := Lerp(from.value.radius, to.value.radius, alpha))
  }

  /** What the client shows of the entity of a history for time `t`. */
  function SampleAt(h: seq<ActorSample>, t: nat): Actor
    requires h != []
  {
    if |h| == 1 || t <= h[0].serverTimeUs || t >= Last(h).serverTimeUs then Last(h).value
    else
      var i := Search(h, t, 1);
      if i < |h| then InterpolateState(h[i - 1], h[i], t) else Last(h).value
  }

  function SampleAll(hs: ActorHistories, order: seq<int>, t: nat): seq<Actor> {
    if order == [] then []
    else
      var init := SampleAll(hs, order[..|order| - 1], t);
      var h := HistoryOf(hs, order[|order| - 1]);
      if h == [] then init else init + [SampleAt(h, t)]
  }

  // ---------------------------------------------------------------------------------------------
  // The code

  class InterpolationBuffer {
    const config: Config
    var histories: ActorHistories
    var latestEntityOrder: seq<int>

    function State(): Buffer
      reads this
    {
      Buffer(histories, latestEntityOrder)
    }

    constructor (config: Config)
      ensures this.config == config && State() == Buffer(map[], [])
    {
      this.config, histories, latestEntityOrder := config, map[], [];
    }

    method Reset()
      modifies this
      ensures State() == Buffer(map[], [])
    {
      histories, latestEntityOrder := map[], [];
    }

    method PushSnapshot(t: nat, entities: seq<Actor>)
      modifies this
      ensures State() == Push(old(State()), config, entities, t)
    {
      hide PushEntity, EntityIds;
      latestEntityOrder := [];
      ghost var start := histories;
      for i := 0 to |entities|
        invariant histories == PushEntities(start, config, entities[..i], t)
        invariant latestEntityOrder == EntityIds(entities)[..i]
      {
        assert entities[..i + 1][..i] == entities[..i];
        latestEntityOrder := latestEntityOrder + [entities[i].entityId];
        PushOne(t, entities[i]);
      }
      assert entities[..|entities|] == entities;
    }

    /** The body of the loop over the entities of a snapshot. */
    method PushOne(t: nat, entity: Actor)
      modifies this`histories
      ensures histories == PushEntity(old(histories), config, entity, t)
    {
      hide Capped, Beyond, SuffixOf;
      var history := HistoryOf(histories, entity.entityId);
      if history != [] {
        var latest := Last(history);
        if t <= latest.serverTimeUs {
          return;
        }
        if Beyond(DistanceSquared(latest.value.position, entity.position), config.teleportDistance) {
          history := [];
        }
      }
      history := history + [Sample(t, entity)];
      history := EvictOverCap(history, config.maxSamplesPerEntity);
      histories := histories[entity.entityId := history];
    }

    method SampleEntities(t: nat) returns (entities: seq<Actor>)
      ensures entities == SampleAll(histories, latestEntityOrder, t)
    {
      hide InterpolateState;
      entities := [];
      for k := 0 to |latestEntityOrder|
        invariant entities == SampleAll(histories, latestEntityOrder[..k], t)
      {
        assert latestEntityOrder[..k + 1][..k] == latestEntityOrder[..k];
        var history := HistoryOf(histories, latestEntityOrder[k]);
        if history == [] {
          continue;
        }
        var state := SampleOne(history, t);
        entities := entities + [state];
      }
      assert latestEntityOrder[..|latestEntityOrder|] == latestEntityOrder;
    }
  }

  /** The body of the sampling loop, for an entity with samples. */
  method SampleOne(history: seq<ActorSample>, t: nat) returns (state: Actor)
    requires history != []
    ensures state == SampleAt(history, t)
  {
    hide InterpolateState;
    if |history| == 1 {
      return Last(history).value;
    }
    if t <= history[0].serverTimeUs || t >= Last(history).serverTimeUs {
      return Last(history).value;
    }
    var index := 1;
    while index < |history| && !(history[index - 1].serverTimeUs <= t <= history[index].serverTimeUs)
      invariant 1 <= index <= |history| && Search(history, t, index) == Search(history, t, 1)
    {
      index := index + 1;
    }
    if index < |history| {
      state := InterpolateState(history[index - 1], history[index], t);
    } else {
      state := Last(history).value;
    }
  }
}
