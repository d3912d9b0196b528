/** What every run of the interpolation buffer keeps, and what sampling it therefore means. */
module InterpolationLaws {
  import opened Geometry
  import opened InterpolationBuffer
  import opened Paths
  import opened Timeline

  datatype Event = Snapshot(timeUs: nat, entities: seq<Actor>) | Cleared

  function Step(b: Buffer, config: Config, e: Event): Buffer {
    match e
    case Snapshot(t, entities) => Push(b, config, entities, t)
    case Cleared => Buffer(map[], [])
  }

  function Run(config: Config, events: seq<Event>): Buffer {
    if events == [] then Buffer(map[], [])
    else Step(Run(config, events[..|events| - 1]), config, events[|events| - 1])
  }

  /** A snapshot of one entity, newer than its history and no teleport from there. */
  lemma SeesOne(config: Config, events: seq<Event>, entity: Actor, t: nat)
    requires var h := HistoryOf(Run(config, events).histories, entity.entityId);
      Accepts(h, t) && Continued(h, config, entity) == h && |h| < config.maxSamplesPerEntity
    ensures HistoryOf(Run(config, events + [Snapshot(t, [entity])]).histories, entity.entityId)
         == HistoryOf(Run(config, events).histories, entity.entityId) + [Sample(t, entity)]
  {
    hide Continued;
    var hs := Run(config, events).histories;
    assert (events + [Snapshot(t, [entity])])[..|events|] == events;
    assert [entity][..0] == [] && PushEntities(hs, config, [], t) == hs;
    assert PushEntities(hs, config, [entity], t) == PushEntity(hs, config, entity, t);
  }

  /** Two snapshots of an entity that does not teleport. */
  lemma SeesTwo(config: Config, a: Actor, b: Actor, start: nat, end: nat)
    requires a.entityId == b.entityId && start < end && config.maxSamplesPerEntity >= 2 && !Teleported(config, a, b)
    ensures HistoryOf(Run(config, [Snapshot(start, [a]), Snapshot(end, [b])]).histories, a.entityId)
         == [Sample(start, a), Sample(end, b)]
  {
    var none: seq<Event> := [];
    var once := none + [Snapshot(start, [a])];
    assert HistoryOf(Run(config, none).histories, a.entityId) == [];
    hide Run, Teleported;
    SeesOne(config, none, a, start);
    SeesOne(config, once, b, end);
    assert once + [Snapshot(end, [b])] == [Snapshot(start, [a]), Snapshot(end, [b])];
  }

  // ---------------------------------------------------------------------------------------------
  // The history invariant

  /** Strictly increasing times, at most the cap, and no teleport between neighbours. */
  ghost predicate Continuous(h: seq<ActorSample>, config: Config) {
    Increasing(h) && |h| <= config.maxSamplesPerEntity && NoTeleports(h, config)
  }

  ghost predicate NoTeleports(h: seq<ActorSample>, config: Config) {
    forall i :: 0 < i < |h| ==> !Teleported(config, h[i - 1].value, h[i].value)
  }

  ghost predicate AllContinuous(hs: ActorHistories, config: Config) {
    forall id :: Continuous(HistoryOf(hs, id), config)
  }

  lemma GrownContinuous(h: seq<ActorSample>, config: Config, entity: Actor, t: nat)
    requires Increasing(h) && NoTeleports(h, config) && Accepts(h, t)
    ensures var grown := Continued(h, config, entity) + [Sample(t, entity)];
      Increasing(grown) && NoTeleports(grown, config)
  {
    hide Teleported;
  }

  lemma EndContinuous(r: seq<ActorSample>, h: seq<ActorSample>, config: Config)
    requires SuffixOf(r, h) && Increasing(h) && NoTeleports(h, config)
    ensures Increasing(r) && NoTeleports(r, config)
  {
    hide Teleported;
    assert forall i :: 0 <= i < |r| ==> r[i] == h[|h| - |r| + i];
  }

  lemma AppendContinuous(h: seq<ActorSample>, config: Config, entity: Actor, t: nat)
    requires Continuous(h, config) && Accepts(h, t)
    ensures Continuous(Capped(Continued(h, config, entity) + [Sample(t, entity)], config.maxSamplesPerEntity), config)
  {
    hide Teleported, Capped, Continued, SuffixOf, Increasing, NoTeleports;
    var grown := Continued(h, config, entity) + [Sample(t, entity)];
    GrownContinuous(h, config, entity, t);
    EndContinuous(Capped(grown, config.maxSamplesPerEntity), grown, config);
  }

  lemma PushEntityContinuous(hs: ActorHistories, config: Config, entity: Actor, t: nat)
    requires AllContinuous(hs, config)
    ensures AllContinuous(PushEntity(hs, config, entity, t), config)
  {
    hide Continuous, Capped, Continued, SuffixOf;
    var h := HistoryOf(hs, entity.entityId);
    if Accepts(h, t) {
      AppendContinuous(h, config, entity, t);
      forall other
        ensures Continuous(HistoryOf(PushEntity(hs, config, entity, t), other), config)
      {
        assert Continuous(HistoryOf(hs, other), config);
      }
    }
  }

  lemma {:induction false} PushEntitiesContinuous(hs: ActorHistories, config: Config, entities: seq<Actor>, t: nat)
    requires AllContinuous(hs, config)
    ensures AllContinuous(PushEntities(hs, config, entities, t), config)
  {
    hide AllContinuous, PushEntity;
    if entities != [] {
      var n := |entities| - 1;
      PushEntitiesContinuous(hs, config, entities[..n], t);
      PushEntityContinuous(PushEntities(hs, config, entities[..n], t), config, entities[n], t);
    }
  }

  /** In every run every history is strictly increasing, within the cap and free of teleports. */
  lemma {:induction false} RunContinuous(config: Config, events: seq<Event>, id: int)
    ensures Continuous(HistoryOf(Run(config, events).histories, id), config)
  {
    RunAllContinuous(config, events);
  }

  lemma {:induction false} RunAllContinuous(config: Config, events: seq<Event>)
    ensures AllContinuous(Run(config, events).histories, config)
  {
    hide Teleported, PushEntities;
    if events != [] {
      var init, e := events[..|events| - 1], events[|events| - 1];
      RunAllContinuous(config, init);
      if e.Snapshot? {
        hide AllContinuous;
        PushEntitiesContinuous(Run(config, init).histories, config, e.entities, e.timeUs);
      }
    }
  }

  // ---------------------------------------------------------------------------------------------
  // What sampling means

  lemma SampleInBracket(h: seq<ActorSample>, t: nat, i: nat)
    requires Increasing(h) && Brackets(h, t, i) && t < Last(h).serverTimeUs
    ensures SampleAt(h, t) == InterpolateState(h[i - 1], h[i], t)
  {
    SearchFinds(h, t, 1, i);
    assert h[0].serverTimeUs <= h[i - 1].serverTimeUs;
  }

  /**
   Strictly inside the window of its samples the client shows the linear interpolation of the two around the
   time, everywhere else the newest sample.  The search never falls through, and the two samples it finds are
   in order, so neither fallback of the code is reached.
   */
  lemma RunSamples(config: Config, events: seq<Event>, id: int, t: nat)
    requires HistoryOf(Run(config, events).histories, id) != []
    ensures var h := HistoryOf(Run(config, events).histories, id);
      if h[0].serverTimeUs < t < Last(h).serverTimeUs
      then exists i: nat :: Brackets(h, t, i) && Search(h, t, 1) == i
                       && h[i - 1].serverTimeUs < h[i].serverTimeUs
                       && !Teleported(config, h[i - 1].value, h[i].value)
                       && SampleAt(h, t) == InterpolateState(h[i - 1], h[i], t)
      else SampleAt(h, t) == Last(h).value
  {
    var h := HistoryOf(Run(config, events).histories, id);
    RunContinuous(config, events, id);
    hide Run, Teleported;
    if h[0].serverTimeUs < t < Last(h).serverTimeUs {
      var i := BracketExists(h, t);
      SampleInBracket(h, t, i);
      SearchFinds(h, t, 1, i);
    }
  }

  /** One coordinate of a moving entity, as the client has recorded it. */
  function Positions(h: seq<ActorSample>, axis: Axis): (r: seq<Sample<real>>)
    ensures |r| == |h|
    ensures forall i :: 0 <= i < |h| ==> r[i] == Sample(h[i].serverTimeUs, At(h[i].value.position, axis))
  {
    seq(|h|, i requires 0 <= i < |h| => Sample(h[i].serverTimeUs, At(h[i].value.position, axis)))
  }

  lemma SampleIsPath(h: seq<ActorSample>, t: nat, axis: Axis)
    requires h != [] && Increasing(h) && (|h| > 1 ==> h[0].serverTimeUs < t)
    ensures At(SampleAt(h, t).position, axis) == Path(Positions(h, axis), t)
  {
    var c := Positions(h, axis);
    if |h| > 1 {
      if t >= Last(h).serverTimeUs {
        PathAfterLast(c, t);
      } else {
        var i := BracketExists(h, t);
        SampleInBracket(h, t, i);
        PathInBracket(c, t, i);
      }
    }
  }

  /** Every entity of the order that has a history is shown. */
  lemma {:induction false} SampleAllHas(hs: ActorHistories, order: seq<int>, t: nat, id: int)
    requires id in order && HistoryOf(hs, id) != []
    ensures SampleAt(HistoryOf(hs, id), t) in SampleAll(hs, order, t)
  {
    hide SampleAt;
    var n := |order| - 1;
    if order[n] != id {
      assert order == order[..n] + [order[n]];
      SampleAllHas(hs, order[..n], t, id);
    }
  }

  /** The interpolated fields of an entity. */
  datatype Field = PositionX | PositionY | PositionZ | VelocityX | VelocityY | VelocityZ | Yaw | Pitch | Health | Radius

  function FieldOf(a: Actor, field: Field): real {
    match field
    case PositionX => a.position.x
    case PositionY => a.position.y
    case PositionZ => a.position.z
    case VelocityX => a.velocity.x
    case VelocityY => a.velocity.y
    case VelocityZ => a.velocity.z
    case Yaw => a.yaw
    case Pitch => a.pitch
    case Health => a.health
    case Radius => a.radius
  }

  function Fields(h: seq<ActorSample>, field: Field): (r: seq<Sample<real>>)
    ensures |r| == |h|
    ensures forall i :: 0 <= i < |h| ==> r[i] == Sample(h[i].serverTimeUs, FieldOf(h[i].value, field))
  {
    seq(|h|, i requires 0 <= i < |h| => Sample(h[i].serverTimeUs, FieldOf(h[i].value, field)))
  }

  /**
   After the first sample every field shown is on the piecewise linear path of that field through the samples; whether
   the entity is alive, and its id, are those of the first sample not before the time.
   */
  lemma SampleFieldsArePaths(h: seq<ActorSample>, t: nat, field: Field)
    requires h != [] && Increasing(h) && (|h| > 1 ==> h[0].serverTimeUs < t)
    ensures FieldOf(SampleAt(h, t), field) == Path(Fields(h, field), t)
    ensures SampleAt(h, t).alive == NotBefore(h, t).alive && SampleAt(h, t).entityId == NotBefore(h, t).entityId
  {
    var c := Fields(h, field);
    hide FieldOf;
    if |h| > 1 {
      if t >= Last(h).serverTimeUs {
        PathAfterLast(c, t);
        NotBeforeAfterLast(h, t);
      } else {
        var i := BracketExists(h, t);
        SampleInBracket(h, t, i);
        PathInBracket(c, t, i);
        NotBeforeInBracket(h, t, i);
        InterpolatedField(h[i - 1], h[i], t, field);
      }
    }
  }

  lemma InterpolatedField(from: ActorSample, to: ActorSample, t: nat, field: Field)
    requires from.serverTimeUs < t && from.serverTimeUs < to.serverTimeUs
    ensures var shown := InterpolateState(from, to, t);
      FieldOf(shown, field)
      == Lerp(FieldOf(from.value, field), FieldOf(to.value, field), Alpha(from.serverTimeUs, to.serverTimeUs, t))
      && shown.alive == to.value.alive && shown.entityId == to.value.entityId
  {
    hide Lerp, Alpha;
  }

  /** The entities of `order`, one each and in that order, when all have a history. */
  lemma {:induction false} SampleAllInOrder(hs: ActorHistories, order: seq<int>, t: nat)
    requires forall id :: id in order ==> HistoryOf(hs, id) != []
    ensures |SampleAll(hs, order, t)| == |order|
    ensures forall i :: 0 <= i < |order| ==> SampleAll(hs, order, t)[i] == SampleAt(HistoryOf(hs, order[i]), t)
  {
    hide SampleAt;
    if order != [] {
      var init := order[..|order| - 1];
      assert forall id :: id in init ==> id in order;
      assert order[|order| - 1] in order;
      SampleAllInOrder(hs, init, t);
    }
  }

  lemma PushEntityPresent(hs: ActorHistories, config: Config, entity: Actor, t: nat, id: int)
    requires config.maxSamplesPerEntity > 0 && (id == entity.entityId || HistoryOf(hs, id) != [])
    ensures HistoryOf(PushEntity(hs, config, entity, t), id) != []
  {
    var continued := Continued(HistoryOf(hs, entity.entityId), config, entity);
    CappedCases(continued + [Sample(t, entity)], config.maxSamplesPerEntity);
    hide Continued, Capped, SuffixOf;
  }

  lemma {:induction false} PushEntitiesPresent(hs: ActorHistories, config: Config, entities: seq<Actor>, t: nat, i: nat)
    requires config.maxSamplesPerEntity > 0 && i < |entities|
    ensures HistoryOf(PushEntities(hs, config, entities, t), entities[i].entityId) != []
  {
    hide PushEntity;
    var n := |entities| - 1;
    if i < n {
      PushEntitiesPresent(hs, config, entities[..n], t, i);
    }
    PushEntityPresent(PushEntities(hs, config, entities[..n], t), config, entities[n], t, entities[i].entityId);
  }

  /**
   In every run with a positive cap, exactly the entities of the newest snapshot are shown, in its order, each as its
   own history has it.
   */
  lemma ShownInOrder(config: Config, events: seq<Event>, entities: seq<Actor>, t: nat, at: nat)
    requires config.maxSamplesPerEntity > 0
    ensures var b := Run(config, events + [Snapshot(t, entities)]);
      var shown := SampleAll(b.histories, b.order, at);
      |shown| == |entities|
      && forall i :: 0 <= i < |shown| ==>
           var h := HistoryOf(b.histories, entities[i].entityId);
           h != [] && shown[i] == SampleAt(h, at)
  {
    var all := events + [Snapshot(t, entities)];
    var before, b := Run(config, events), Run(config, all);
    assert all[..|all| - 1] == events;
    assert b == Push(before, config, entities, t);
    hide Run, PushEntities, SampleAt;
    forall i | 0 <= i < |entities|
      ensures HistoryOf(b.histories, entities[i].entityId) != []
    {
      PushEntitiesPresent(before.histories, config, entities, t, i);
    }
    forall id | id in b.order
      ensures HistoryOf(b.histories, id) != []
    {
      var i :| 0 <= i < |entities| && entities[i].entityId == id;
    }
    SampleAllInOrder(b.histories, b.order, at);
    forall i | 0 <= i < |entities|
      ensures SampleAll(b.histories, b.order, at)[i] == SampleAt(HistoryOf(b.histories, entities[i].entityId), at)
    {
      assert b.order[i] == entities[i].entityId;
    }
  }

  // ---------------------------------------------------------------------------------------------
  // The log a run stands for

  function IdOf(entity: Actor): int {
    entity.entityId
  }

  /** Every accepted state since the last reset, per entity. */
  function Log(events: seq<Event>): ActorHistories {
    if events == [] then map[]
    else
      match events[|events| - 1]
      case Snapshot(t, entities) => KeepAll(Log(events[..|events| - 1]), IdOf, entities, t)
      case Cleared => map[]
  }

  lemma PushEntityStands(ps: ActorHistories, fs: ActorHistories, config: Config, entity: Actor, t: nat)
    requires AllStandFor(ps, fs) && config.maxSamplesPerEntity > 0
    ensures AllStandFor(PushEntity(ps, config, entity, t), Keep(fs, entity.entityId, t, entity))
  {
    hide StandsFor, Capped, Continued, SuffixOf;
    var p, f := HistoryOf(ps, entity.entityId), HistoryOf(fs, entity.entityId);
    assert StandsFor(p, f);
    SameNewest(p, f);
    if Accepts(p, t) {
      ContinuedStandsFor(p, f, config, entity, t);
      forall other
        ensures StandsFor(HistoryOf(PushEntity(ps, config, entity, t), other),
                          HistoryOf(Keep(fs, entity.entityId, t, entity), other))
      {
        assert StandsFor(HistoryOf(ps, other), HistoryOf(fs, other));
      }
    }
  }

  lemma ContinuedStandsFor(p: seq<ActorSample>, f: seq<ActorSample>, config: Config, entity: Actor, t: nat)
    requires StandsFor(p, f) && Accepts(p, t) && config.maxSamplesPerEntity > 0
    ensures StandsFor(Capped(Continued(p, config, entity) + [Sample(t, entity)], config.maxSamplesPerEntity),
                      f + [Sample(t, entity)])
  {
    hide Teleported;
    var s := Sample(t, entity);
    var grown := Continued(p, config, entity) + [s];
    AppendStandsFor(p, f, s);
    assert SuffixOf(grown, f + [s]);
    SuffixTrans(Capped(grown, config.maxSamplesPerEntity), grown, f + [s]);
  }

  lemma {:induction false} PushEntitiesStand(
    ps: ActorHistories, fs: ActorHistories, config: Config, entities: seq<Actor>, t: nat
  )
    requires AllStandFor(ps, fs) && config.maxSamplesPerEntity > 0
    ensures AllStandFor(PushEntities(ps, config, entities, t), KeepAll(fs, IdOf, entities, t))
  {
    hide AllStandFor, PushEntity, Keep;
    if entities != [] {
      var n := |entities| - 1;
      PushEntitiesStand(ps, fs, config, entities[..n], t);
      PushEntityStands(PushEntities(ps, config, entities[..n], t), KeepAll(fs, IdOf, entities[..n], t),
                       config, entities[n], t);
    }
  }

  /** What the buffer holds of an entity is the end of its log. */
  lemma {:induction false} RunStandsForLog(config: Config, events: seq<Event>)
    requires config.maxSamplesPerEntity > 0
    ensures AllStandFor(Run(config, events).histories, Log(events))
  {
    hide AllStandFor, PushEntities, KeepAll;
    if events == [] {
      NothingStands<Actor>();
    } else {
      var init, e := events[..|events| - 1], events[|events| - 1];
      RunStandsForLog(config, init);
      match e
      case Snapshot(t, entities) => PushEntitiesStand(Run(config, init).histories, Log(init), config, entities, t);
      case Cleared => NothingStands<Actor>();
    }
  }

  // ---------------------------------------------------------------------------------------------
  // Nothing is dropped without a reason

  /** What the history lacks of its log was cut at a teleport, or is older than the cap holds. */
  ghost predicate CutRightly(p: seq<ActorSample>, f: seq<ActorSample>, config: Config) {
    StandsFor(p, f) && Justified(p, f, config)
  }

  ghost predicate Justified(p: seq<ActorSample>, f: seq<ActorSample>, config: Config) {
    p == f || |p| == config.maxSamplesPerEntity || TeleportedBefore(p, f, config)
  }

  /** The state before the history's first one was more than the teleport distance away. */
  ghost predicate TeleportedBefore(p: seq<ActorSample>, f: seq<ActorSample>, config: Config) {
    0 < |p| < |f|
    && Beyond(DistanceSquared(f[|f| - |p| - 1].value.position, p[0].value.position), config.teleportDistance)
  }

  ghost predicate AllCutRightly(ps: ActorHistories, fs: ActorHistories, config: Config) {
    forall id :: CutRightly(HistoryOf(ps, id), HistoryOf(fs, id), config)
  }

  lemma ContinuedCutRightly(p: seq<ActorSample>, f: seq<ActorSample>, config: Config, entity: Actor, t: nat)
    requires CutRightly(p, f, config) && Accepts(p, t) && config.maxSamplesPerEntity > 0
    ensures CutRightly(Capped(Continued(p, config, entity) + [Sample(t, entity)], config.maxSamplesPerEntity),
                       f + [Sample(t, entity)], config)
  {
    ContinuedStandsFor(p, f, config, entity, t);
    SameNewest(p, f);
    hide StandsFor, Justified, Continued, Capped;
    ContinuedJustified(p, f, config, entity, t);
  }

  lemma ContinuedJustified(p: seq<ActorSample>, f: seq<ActorSample>, config: Config, entity: Actor, t: nat)
    requires Justified(p, f, config) && config.maxSamplesPerEntity > 0
    requires (p == [] <==> f == []) && (p != [] ==> Last(p) == Last(f))
    ensures Justified(Capped(Continued(p, config, entity) + [Sample(t, entity)], config.maxSamplesPerEntity),
                      f + [Sample(t, entity)], config)
  {
    var s, cap := Sample(t, entity), config.maxSamplesPerEntity;
    CappedCases([s], cap);
    CappedCases(p + [s], cap);
    assert [] + [s] == [s];
    hide TeleportedBefore, SuffixOf, Capped, Teleported;
    if p != [] && Teleported(config, Last(p).value, entity) {
      TeleportCuts(f, s, config);
    } else if |p| < cap {
      if p != f && |p| != cap {
        GrownTeleport(p, f, s, config);
      }
    }
  }

  lemma TeleportCuts(f: seq<ActorSample>, s: ActorSample, config: Config)
    requires f != [] && Teleported(config, Last(f).value, s.value)
    ensures TeleportedBefore([s], f + [s], config)
  {
    hide Beyond;
  }

  lemma GrownTeleport(p: seq<ActorSample>, f: seq<ActorSample>, s: ActorSample, config: Config)
    requires TeleportedBefore(p, f, config)
    ensures TeleportedBefore(p + [s], f + [s], config)
  {
    hide Beyond;
  }

  lemma PushEntityCutsRightly(ps: ActorHistories, fs: ActorHistories, config: Config, entity: Actor, t: nat)
    requires AllCutRightly(ps, fs, config) && config.maxSamplesPerEntity > 0
    ensures AllCutRightly(PushEntity(ps, config, entity, t), Keep(fs, entity.entityId, t, entity), config)
  {
    hide CutRightly, Capped, Continued, SuffixOf;
    var p, f := HistoryOf(ps, entity.entityId), HistoryOf(fs, entity.entityId);
    assert CutRightly(p, f, config);
    CutStandsFor(p, f, config);
    SameNewest(p, f);
    if Accepts(p, t) {
      ContinuedCutRightly(p, f, config, entity, t);
      forall other
        ensures CutRightly(HistoryOf(PushEntity(ps, config, entity, t), other),
                           HistoryOf(Keep(fs, entity.entityId, t, entity), other), config)
      {
        assert CutRightly(HistoryOf(ps, other), HistoryOf(fs, other), config);
      }
    }
  }

  lemma CutStandsFor(p: seq<ActorSample>, f: seq<ActorSample>, config: Config)
    requires CutRightly(p, f, config)
    ensures StandsFor(p, f)
  {
  }

  lemma {:induction false} PushEntitiesCutRightly(
    ps: ActorHistories, fs: ActorHistories, config: Config, entities: seq<Actor>, t: nat
  )
    requires AllCutRightly(ps, fs, config) && config.maxSamplesPerEntity > 0
    ensures AllCutRightly(PushEntities(ps, config, entities, t), KeepAll(fs, IdOf, entities, t), config)
  {
    hide AllCutRightly, PushEntity, Keep;
    if entities != [] {
      var n := |entities| - 1;
      PushEntitiesCutRightly(ps, fs, config, entities[..n], t);
      PushEntityCutsRightly(PushEntities(ps, config, entities[..n], t), KeepAll(fs, IdOf, entities[..n], t),
                            config, entities[n], t);
    }
  }

  /**
   In every run each history is its whole log, unless it is as long as the cap allows, or the state before its first
   one was more than the teleport distance away.
   */
  lemma {:induction false} RunCutsRightly(config: Config, events: seq<Event>)
    requires config.maxSamplesPerEntity > 0
    ensures AllCutRightly(Run(config, events).histories, Log(events), config)
  {
    hide AllCutRightly, PushEntities, KeepAll;
    if events == [] {
      NothingCut(config);
    } else {
      var init, e := events[..|events| - 1], events[|events| - 1];
      RunCutsRightly(config, init);
      match e
      case Snapshot(t, entities) => PushEntitiesCutRightly(Run(config, init).histories, Log(init), config, entities, t);
      case Cleared => NothingCut(config);
    }
  }

  lemma NothingCut(config: Config)
    ensures AllCutRightly(map[], map[], config)
  {
  }
}
