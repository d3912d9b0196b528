/**
 A shot from end to end: the time the client shows, the time its command asks for, and what the server tests the
 shot against.
 */
module Shots {
  import opened Geometry
  import opened Paths
  import opened ShootWhatYouSaw
  import opened SimTypes
  import opened Timeline
  import opened Words
  import HostClock
  import RecordPace

  // ---------------------------------------------------------------------------------------------
  // The two times

  /** The client's clock when it makes a command: its newest snapshot's time, the time since that arrived, the delay. */
  datatype View = View(newestUs: nat, elapsedUs: nat, delayUs: nat)

  /** The interpolation delay in milliseconds: two whole snapshot intervals, but at least 100. */
  function DelayMs(interpolationEnabled: bool, snapshotRateHz: U16): (ms: nat)
    ensures !interpolationEnabled ==> ms == 0
    ensures interpolationEnabled ==> ms >= 100
    ensures interpolationEnabled && ms > 100 ==> ms * snapshotRateHz <= 2000
    ensures interpolationEnabled && snapshotRateHz > 0 ==> 2000 < (ms + 1) * snapshotRateHz
  {
    if !interpolationEnabled then 0
    else if snapshotRateHz == 0 then 100
    else if 2000 / snapshotRateHz > 100 then 2000 / snapshotRateHz else 100
  }

  /** The server time the client shows the enemies at. */
  function ShownAt(v: View): nat {
    if v.newestUs + v.elapsedUs > v.delayUs then v.newestUs + v.elapsedUs - v.delayUs else 0
  }

  /** The server time the server takes the command to have been made at. */
  function AskedAt(v: View): nat {
    if v.newestUs <= v.delayUs then 0 else v.newestUs - v.delayUs
  }

  /**
   The time asked for is the delay before the newest snapshot, or zero; and it is behind the time shown, by the time
   since that snapshot arrived.
   */
  lemma AskedBehindShown(v: View)
    ensures AskedAt(v) <= ShownAt(v) <= AskedAt(v) + v.elapsedUs
    ensures v.delayUs <= v.newestUs ==> AskedAt(v) + v.delayUs == v.newestUs && ShownAt(v) == AskedAt(v) + v.elapsedUs
    ensures v.delayUs > v.newestUs ==> AskedAt(v) == 0
    ensures v.newestUs <= v.delayUs <= v.newestUs + v.elapsedUs ==> ShownAt(v) + v.delayUs == v.newestUs + v.elapsedUs
    ensures v.delayUs > v.newestUs + v.elapsedUs ==> ShownAt(v) == 0
  {
  }

  // ---------------------------------------------------------------------------------------------
  // What the client presents

  /** The enemies on the screen: interpolated, or those of the newest snapshot when interpolation is off. */
  function Presented(b: Client.Buffer, newest: seq<Client.Actor>, t: nat, interpolationEnabled: bool)
    : seq<Client.Actor>
  {
    if interpolationEnabled then Client.SampleAll(b.histories, b.order, t) else newest
  }

  /** An interpolated enemy of the newest snapshot is on the screen as the state its history gives. */
  lemma PresentedHas(snapshots: seq<World>, config: Client.Config, id: int, t: nat)
    requires snapshots != [] && HasEnemy(snapshots[|snapshots| - 1], id) && Seen(snapshots, config, id) != []
    ensures Client.SampleAt(Seen(snapshots, config, id), t)
         in Presented(ClientLaws.Run(config, ClientEvents(snapshots)), snapshots[|snapshots| - 1].enemies, t, true)
  {
    hide Client.SampleAt, Client.SampleAll, Client.PushEntities;
    var b, w := ClientLaws.Run(config, ClientEvents(snapshots)), snapshots[|snapshots| - 1];
    var events := ClientEvents(snapshots);
    assert events[|events| - 1] == ClientLaws.Snapshot(w.timeUs, w.enemies);
    var k :| 0 <= k < |w.enemies| && w.enemies[k].entityId == id;
    assert b.order[k] == id;
    ClientLaws.SampleAllHas(b.histories, b.order, t, id);
  }

  // ---------------------------------------------------------------------------------------------
  // What the server tests the shot against

  ghost predicate HasEnemy(w: World, id: int) {
    exists e :: e in w.enemies && e.entityId == id
  }

  function ServerAfter(worlds: seq<World>, config: Server.Config, simConfig: SimConfig<real>): Server.Service {
    ServerLaws.Run(config, ServerEvents(worlds, simConfig))
  }

  /** The rewound targets, or those of the current world when nothing can be rewound. */
  function EvaluationTargets(s: Server.Service, asked: nat, now: nat, current: seq<Server.HitscanTarget>)
    : seq<Server.HitscanTarget>
  {
    var targets := Server.Rewind(s, asked, now);
    if targets == [] then current else targets
  }

  /** The hit test passes over a target that is dead or has no extent. */
  predicate CanBeHit(target: Server.HitscanTarget) {
    target.alive && target.radius > 0.0
  }

  /** The enemy `shown` is among the targets under its id, and can be hit. */
  ghost predicate Tested(targets: seq<Server.HitscanTarget>, id: int, shown: Client.Actor) {
    exists target :: target in targets && target.entityId == id && AimedAt(shown, target) && CanBeHit(target)
  }

  /** The first state of the log not before `t`, or the newest when there is none, is alive. */
  predicate AliveAt(f: seq<Client.ActorSample>, t: nat)
    requires f != []
  {
    NotBefore(f, t).alive && NotBefore(f, t).health > 0.0
  }

  /** What it takes to be hit at `t`, from the log alone: the place, a life and an extent. */
  ghost predicate HitAt(f: seq<Client.ActorSample>, t: nat, shown: Client.Actor)
    requires f != []
  {
    SamePlace(shown, PlaceAt(f, t)) && AliveAt(f, t) && shown.radius > 0.0
  }

  lemma {:induction false} TargetNotBefore(f: seq<Client.ActorSample>, t: nat)
    requires f != []
    ensures NotBefore(TargetsOf(f), t) == Server.RemoteActorTarget(NotBefore(f, t))
  {
    hide Server.RemoteActorTarget;
    if |f| > 1 && t > f[0].serverTimeUs {
      assert TargetsOf(f)[1..] == TargetsOf(f[1..]);
      TargetNotBefore(f[1..], t);
    }
  }

  /** A rewound enemy is alive exactly when the log has it alive at that time. */
  lemma RewoundAlive(f: seq<Client.ActorSample>, t: nat)
    requires f != [] && Increasing(f)
    ensures Server.RewindAt(TargetsOf(f), t).alive <==> AliveAt(f, t)
  {
    hide Server.RewindAt, NotBefore;
    assert Increasing(TargetsOf(f));
    ServerLaws.RewindFlags(TargetsOf(f), t);
    TargetNotBefore(f, t);
  }

  /** The target the log has at `t` is the enemy shown, and can be hit, exactly when the log says so. */
  lemma RewoundHit(f: seq<Client.ActorSample>, t: nat, shown: Client.Actor)
    requires f != [] && Increasing(f)
    ensures var target := Server.RewindAt(TargetsOf(f), t);
      AimedAt(shown, target) && CanBeHit(target) <==> HitAt(f, t, shown)
  {
    hide PlaceAt, Server.RewindAt, AliveAt, SamePlace;
    var target := Server.RewindAt(TargetsOf(f), t);
    LogPlace(f, t);
    AimedAtOne(shown, PlaceAt(f, t), target);
    RewoundAlive(f, t);
  }

  lemma {:induction false} KeepsConfig(worlds: seq<World>, config: Server.Config, simConfig: SimConfig<real>)
    ensures ServerAfter(worlds, config, simConfig).config == config
  {
    hide Server.RecordTargets;
    if worlds != [] {
      var events := ServerEvents(worlds, simConfig);
      assert events[..|events| - 1] == ServerEvents(worlds[..|worlds| - 1], simConfig);
      KeepsConfig(worlds[..|worlds| - 1], config, simConfig);
    }
  }

  lemma InNewestOrder(worlds: seq<World>, config: Server.Config, simConfig: SimConfig<real>, id: int)
    requires worlds != [] && HasEnemy(worlds[|worlds| - 1], id)
    ensures id in ServerAfter(worlds, config, simConfig).order
  {
    hide Server.RecordTargets, Server.PlayerTarget, Server.RemoteActorTarget, Server.WorldTargets;
    var init, w := worlds[..|worlds| - 1], worlds[|worlds| - 1];
    var events := ServerEvents(worlds, simConfig);
    assert events[..|events| - 1] == ServerEvents(init, simConfig);
    var k :| 0 <= k < |w.enemies| && w.enemies[k].entityId == id;
    var targets := Server.WorldTargets(w.players, w.enemies, simConfig);
    assert targets[|w.players| + k] == Server.RemoteActorTarget(w.enemies[k]);
    assert Server.Ids(targets)[|w.players| + k] == id;
  }

  /** An enemy of the newest world is in the log. */
  lemma NewestLogged(worlds: seq<World>, id: int)
    requires worlds != [] && HasEnemy(worlds[|worlds| - 1], id)
    ensures ClientLog(worlds, id) != []
  {
    hide ClientLog, FirstIndex;
    var w := worlds[|worlds| - 1];
    ClientLogGrows(worlds, id);
    var k :| 0 <= k < |w.enemies| && w.enemies[k].entityId == id;
    assert ClientLaws.IdOf(w.enemies[k]) == id;
    assert FirstIndex(ClientLaws.IdOf, w.enemies, id) <= k;
  }

  /** The current targets are tested exactly as long as no entity of the newest order has a history to rewind by. */
  lemma FallsBack(s: Server.Service, asked: nat, now: nat, current: seq<Server.HitscanTarget>)
    ensures var tested := EvaluationTargets(s, asked, now, current);
      if forall id :: id in s.order ==> HistoryOf(s.histories, id) == [] then tested == current
      else tested != [] && forall target :: target in tested ==>
             exists id :: id in s.order && HistoryOf(s.histories, id) != []
                          && target == Server.RewindAt(HistoryOf(s.histories, id),
                                                       Server.ClampRewindTime(s.config, asked, now))
  {
    hide Server.RewindAll, Server.RewindAt, Server.ClampRewindTime;
    var t := Server.ClampRewindTime(s.config, asked, now);
    if id :| id in s.order && HistoryOf(s.histories, id) != [] {
      ServerLaws.RewindAllHas(s.histories, s.order, t, id);
    } else if Server.Rewind(s, asked, now) != [] {
      ServerLaws.RewindAllOnly(s.histories, s.order, t, Server.Rewind(s, asked, now)[0]);
    }
    forall target | target in Server.Rewind(s, asked, now)
      ensures exists id :: id in s.order && HistoryOf(s.histories, id) != []
                           && target == Server.RewindAt(HistoryOf(s.histories, id), t)
    {
      ServerLaws.RewindAllOnly(s.histories, s.order, t, target);
    }
  }

  /** An enemy of the newest world is tested where it is rewound to, and only there. */
  lemma RewoundListed(
    worlds: seq<World>, config: Server.Config, simConfig: SimConfig<real>, id: int,
    current: seq<Server.HitscanTarget>, asked: nat, now: nat
  )
    requires worlds != [] && HasEnemy(worlds[|worlds| - 1], id) && Held(worlds, config, simConfig, id) != []
    ensures var targets := EvaluationTargets(ServerAfter(worlds, config, simConfig), asked, now, current);
      var rewound := Server.RewindAt(Held(worlds, config, simConfig, id), Server.ClampRewindTime(config, asked, now));
      rewound in targets && rewound.entityId == id
      && forall other :: other in targets && other.entityId == id ==> other == rewound
  {
    hide Server.RewindAt, Server.RewindAll, ServerLaws.Run, ServerLaws.OwnTargets, Server.ClampRewindTime;
    var s, t := ServerAfter(worlds, config, simConfig), Server.ClampRewindTime(config, asked, now);
    var rewound := Server.RewindAt(Held(worlds, config, simConfig, id), t);
    InNewestOrder(worlds, config, simConfig, id);
    KeepsConfig(worlds, config, simConfig);
    ServerLaws.RewindAllHas(s.histories, s.order, t, id);
    ServerLaws.RunOwnTargets(config, ServerEvents(worlds, simConfig));
    ServerLaws.RewindOwn(s.histories, id, t);
    forall other | other in Server.Rewind(s, asked, now) && other.entityId == id
      ensures other == rewound
    {
      ServerLaws.RewindAllOnly(s.histories, s.order, t, other);
      var k :| k in s.order && HistoryOf(s.histories, k) != []
               && other == Server.RewindAt(HistoryOf(s.histories, k), t);
      ServerLaws.RewindOwn(s.histories, k, t);
    }
  }

  /** The target under the id, where the whole log has it. */
  lemma RewoundFromLog(
    worlds: seq<World>, config: Server.Config, simConfig: SimConfig<real>, id: int, t: nat
  )
    requires config.maxSamplesPerEntity > 0 && NoPlayerNamed(worlds, id)
    requires worlds != [] && HasEnemy(worlds[|worlds| - 1], id)
    ensures var f, q := ClientLog(worlds, id), Held(worlds, config, simConfig, id);
      f != [] && q != [] && Increasing(f)
      && Server.RewindAt(q, t) == Server.RewindAt(TargetsOf(f), Max(t, q[0].serverTimeUs))
  {
    hide Held, ServerLog, ClientLog, Server.RewindAt, TargetsOf;
    var f, q := ClientLog(worlds, id), Held(worlds, config, simConfig, id);
    NewestLogged(worlds, id);
    HeldStands(worlds, config, simConfig, id);
    SameWorldsSameLog(worlds, config, simConfig, id);
    SameNewest(q, TargetsOf(f));
    LogIncreases(worlds, id);
    ServerLaws.PruningInvisible(q, TargetsOf(f), t);
  }

  lemma LogIncreases(worlds: seq<World>, id: int)
    ensures Increasing(ClientLog(worlds, id))
  {
    SeenStands(worlds, Client.Config(1, 0.0), id);
  }

  /** With a cap that never fires the server's pruning does not matter to a shot. */
  lemma RewoundInWindow(
    worlds: seq<World>, config: Server.Config, simConfig: SimConfig<real>, id: int, asked: nat, now: nat
  )
    requires config.maxSamplesPerEntity > 0 && NoPlayerNamed(worlds, id)
    requires worlds != [] && HasEnemy(worlds[|worlds| - 1], id)
    requires ServerLaws.SteadyUntil(config, ServerEvents(worlds, simConfig), now)
    ensures var f, q, t := ClientLog(worlds, id), Held(worlds, config, simConfig, id),
                           Server.ClampRewindTime(config, asked, now);
      f != [] && q != [] && Increasing(f) && Server.RewindAt(q, t) == Server.RewindAt(TargetsOf(f), t)
  {
    hide ServerLaws.Run, ServerLaws.FullRun, ServerLaws.SteadyUntil, ServerLaws.CoversWindow, Server.RewindAt,
         ClientLog, ServerLog, Server.ClampRewindTime, TargetsOf;
    RewoundFromLog(worlds, config, simConfig, id, 0);
    SameWorldsSameLog(worlds, config, simConfig, id);
    HeldCovers(worlds, config, simConfig, id, now);
    ServerLaws.WindowAgrees(Held(worlds, config, simConfig, id), TargetsOf(ClientLog(worlds, id)), config, asked, now);
  }

  lemma HeldCovers(worlds: seq<World>, config: Server.Config, simConfig: SimConfig<real>, id: int, now: nat)
    requires ServerLaws.SteadyUntil(config, ServerEvents(worlds, simConfig), now)
    ensures ServerLaws.CoversWindow(
      Held(worlds, config, simConfig, id), ServerLog(worlds, config, simConfig, id), config.maxRewindUs, now)
  {
    hide ServerLaws.Run, ServerLaws.FullRun, ServerLaws.SteadyUntil, ServerLaws.CoversWindow;
    ServerLaws.RunCovers(config, ServerEvents(worlds, simConfig), now);
  }

  /**
   The exact law of a shot at an enemy of the server's newest world, for whatever the client shows: the state shown is
   among the targets, and can be hit, exactly when the worlds have the enemy in its place and alive, and it has an
   extent, at the time asked for, clamped to the rewind window, or at the server's oldest sample when that is later.
   That last exception falls away when the cap never fires.
   */
  lemma ShotTestsExactly(
    worlds: seq<World>, config: Server.Config, simConfig: SimConfig<real>, id: int, shown: Client.Actor,
    current: seq<Server.HitscanTarget>, asked: nat, now: nat
  )
    requires config.maxSamplesPerEntity > 0 && NoPlayerNamed(worlds, id)
    requires worlds != [] && HasEnemy(worlds[|worlds| - 1], id)
    ensures var f, q, t := ClientLog(worlds, id), Held(worlds, config, simConfig, id),
                           Server.ClampRewindTime(config, asked, now);
      var tested := Tested(EvaluationTargets(ServerAfter(worlds, config, simConfig), asked, now, current), id, shown);
      f != [] && q != []
      && (tested <==> HitAt(f, Max(t, q[0].serverTimeUs), shown))
      && (ServerLaws.SteadyUntil(config, ServerEvents(worlds, simConfig), now) ==> (tested <==> HitAt(f, t, shown)))
  {
    hide Held, ClientLog, AimedAt, HitAt, CanBeHit, Server.RewindAt, EvaluationTargets, Server.ClampRewindTime,
         ServerLaws.SteadyUntil, ServerAfter, TargetsOf, Max;
    var f, q := ClientLog(worlds, id), Held(worlds, config, simConfig, id);
    var t := Server.ClampRewindTime(config, asked, now);
    RewoundFromLog(worlds, config, simConfig, id, t);
    RewoundListed(worlds, config, simConfig, id, current, asked, now);
    RewoundHit(f, Max(t, q[0].serverTimeUs), shown);
    if ServerLaws.SteadyUntil(config, ServerEvents(worlds, simConfig), now) {
      RewoundInWindow(worlds, config, simConfig, id, asked, now);
      RewoundHit(f, t, shown);
    }
  }

  // ---------------------------------------------------------------------------------------------
  // Two times in one segment

  lemma InterpolateEnds(a: Client.ActorSample, b: Client.ActorSample)
    requires a.serverTimeUs < b.serverTimeUs
    ensures SamePlace(Client.InterpolateState(a, b, a.serverTimeUs), a.value)
    ensures SamePlace(Client.InterpolateState(a, b, b.serverTimeUs), b.value)
  {
    hide Lerp, Alpha;
    var p, q, s, e := a.value, b.value, a.serverTimeUs, b.serverTimeUs;
    SegmentEnds(p.position.x, q.position.x, s, e);
    SegmentEnds(p.position.y, q.position.y, s, e);
    SegmentEnds(p.position.z, q.position.z, s, e);
    SegmentEnds(p.radius, q.radius, s, e);
  }

  /** Two points of a segment that is not a single point are one only at one time. */
  lemma LerpApart(a: real, b: real, s: nat, e: nat, t: nat, u: nat)
    requires s < e && s <= t <= e && s <= u <= e
    ensures Lerp(a, b, Alpha(s, e, t)) == Lerp(a, b, Alpha(s, e, u)) <==> t == u || a == b
  {
    var slope := (b - a) / (e - s) as real;
    OnSlope(a, b, s, e, t, slope);
    OnSlope(a, b, s, e, u, slope);
    QuotientZero(b - a, (e - s) as real);
    hide Lerp, Alpha, Times;
    SlopeApart(slope, (t - s) as real, (u - s) as real);
  }

  lemma OnSlope(a: real, b: real, s: nat, e: nat, t: nat, slope: real)
    requires s < e && s <= t <= e && slope == (b - a) / (e - s) as real
    ensures Lerp(a, b, Alpha(s, e, t)) == a + Times(slope, (t - s) as real)
  {
    hide Lerp, Alpha;
    SegmentAsSlope(a, b, s, e, t);
  }

  lemma QuotientZero(d: real, w: real)
    requires w > 0.0
    ensures d / w == 0.0 <==> d == 0.0
  {
    assert d / w * w == d;
  }

  lemma SlopeApart(slope: real, x: real, y: real)
    ensures Times(slope, x) == Times(slope, y) <==> x == y || slope == 0.0
  {
    assert slope * x - slope * y == slope * (x - y);
  }

  lemma InterpolatedApart(a: Client.ActorSample, b: Client.ActorSample, t: nat, u: nat)
    requires a.serverTimeUs < b.serverTimeUs
    requires a.serverTimeUs <= t <= b.serverTimeUs && a.serverTimeUs <= u <= b.serverTimeUs
    ensures SamePlace(Client.InterpolateState(a, b, t), Client.InterpolateState(a, b, u))
       <==> t == u || SamePlace(a.value, b.value)
  {
    hide Lerp, Alpha;
    var p, q, s, e := a.value, b.value, a.serverTimeUs, b.serverTimeUs;
    LerpApart(p.position.x, q.position.x, s, e, t, u);
    LerpApart(p.position.y, q.position.y, s, e, t, u);
    LerpApart(p.position.z, q.position.z, s, e, t, u);
    LerpApart(p.radius, q.radius, s, e, t, u);
  }

  /** Between two neighbours of a log the enemy is on the segment of the two. */
  lemma SegmentPlace(f: seq<Client.ActorSample>, k: nat, t: nat)
    requires Increasing(f) && 0 < k < |f| && f[k - 1].serverTimeUs <= t <= f[k].serverTimeUs
    ensures SamePlace(PlaceAt(f, t), Client.InterpolateState(f[k - 1], f[k], t))
  {
    hide SamePlace, Client.SampleAt, Client.InterpolateState;
    InterpolateEnds(f[k - 1], f[k]);
    if t == f[k - 1].serverTimeUs {
      LogPlaceAtSample(f, k - 1);
      SamePlaceAs(PlaceAt(f, t), Client.InterpolateState(f[k - 1], f[k], t), f[k - 1].value);
    } else if t == f[k].serverTimeUs {
      LogPlaceAtSample(f, k);
      SamePlaceAs(PlaceAt(f, t), Client.InterpolateState(f[k - 1], f[k], t), f[k].value);
    } else {
      assert f[0].serverTimeUs <= f[k - 1].serverTimeUs && f[k].serverTimeUs <= Last(f).serverTimeUs;
      ClientLaws.SampleInBracket(f, t, k);
      SamePlaceSelf(PlaceAt(f, t));
    }
  }

  lemma SamePlaceSelf(a: Client.Actor)
    ensures SamePlace(a, a)
  {
  }

  /** The time the client really shows: not beyond its newest sample. */
  function ShownWithin(p: seq<Client.ActorSample>, u: nat): nat
    requires p != []
  {
    if u < Last(p).serverTimeUs then u else Last(p).serverTimeUs
  }

  /** After its first sample the client shows where its own history has the enemy. */
  lemma ShownPlace(p: seq<Client.ActorSample>, u: nat)
    requires Increasing(p) && p != [] && p[0].serverTimeUs < u
    ensures SamePlace(Client.SampleAt(p, u), PlaceAt(p, ShownWithin(p, u)))
  {
    hide SamePlace, PlaceAt, Client.SampleAt;
    if u < Last(p).serverTimeUs {
      PlaceAfterFirst(p, u);
      SamePlaceSelf(Client.SampleAt(p, u));
    } else {
      NewestShown(p, u);
      LogPlaceAtSample(p, |p| - 1);
      SamePlaceSelf(Last(p).value);
      SamePlaceAs(Last(p).value, PlaceAt(p, Last(p).serverTimeUs), Last(p).value);
    }
  }

  lemma PlaceAfterFirst(p: seq<Client.ActorSample>, u: nat)
    requires p != [] && p[0].serverTimeUs < u
    ensures PlaceAt(p, u) == Client.SampleAt(p, u)
  {
  }

  /** Samples `a` and `b` follow each other in the log: no state of the enemy between them was lost. */
  ghost predicate Neighbours(f: seq<Client.ActorSample>, a: Client.ActorSample, b: Client.ActorSample) {
    exists k :: 0 < k < |f| && f[k - 1] == a && f[k] == b
  }

  lemma NeighbourPlace(f: seq<Client.ActorSample>, a: Client.ActorSample, b: Client.ActorSample, t: nat)
    requires Increasing(f) && Neighbours(f, a, b) && a.serverTimeUs <= t <= b.serverTimeUs
    ensures f != [] && a.serverTimeUs < b.serverTimeUs
    ensures SamePlace(PlaceAt(f, t), Client.InterpolateState(a, b, t))
  {
    hide SamePlace, PlaceAt, Client.InterpolateState;
    var k :| 0 < k < |f| && f[k - 1] == a && f[k] == b;
    SegmentPlace(f, k, t);
  }

  /**
   Shown and asked for within one segment of the client's history with nothing lost in it: the state shown is in the
   place of the log exactly when the two times are one or the enemy has not moved in that segment.
   */
  lemma ShownInSegment(f: seq<Client.ActorSample>, p: seq<Client.ActorSample>, u: nat, t: nat, i: nat)
    requires Increasing(f) && Increasing(p) && 0 < i < |p| && Neighbours(f, p[i - 1], p[i])
    requires p[0].serverTimeUs < u
    requires p[i - 1].serverTimeUs <= ShownWithin(p, u) <= p[i].serverTimeUs
    requires p[i - 1].serverTimeUs <= t <= p[i].serverTimeUs
    ensures f != []
    ensures SamePlace(Client.SampleAt(p, u), PlaceAt(f, t))
       <==> t == ShownWithin(p, u) || SamePlace(p[i - 1].value, p[i].value)
  {
    hide SamePlace, PlaceAt, Client.SampleAt, Client.InterpolateState, ShownWithin, Increasing, Neighbours;
    var w, a, b := ShownWithin(p, u), p[i - 1], p[i];
    NeighbourPlace(f, a, b, t);
    ShownPlace(p, u);
    SegmentPlace(p, i, w);
    InterpolatedApart(a, b, w, t);
    FourPlaces(Client.SampleAt(p, u), PlaceAt(p, w), Client.InterpolateState(a, b, w),
               PlaceAt(f, t), Client.InterpolateState(a, b, t));
  }

  lemma FourPlaces(shown: Client.Actor, own: Client.Actor, x: Client.Actor, place: Client.Actor, y: Client.Actor)
    requires SamePlace(shown, own) && SamePlace(own, x) && SamePlace(place, y)
    ensures SamePlace(shown, place) <==> SamePlace(x, y)
  {
  }

  // ---------------------------------------------------------------------------------------------
  // The snapshots the client has received, and the worlds the server has gone on to

  /** A shorter run's log is the front of a longer one's. */
  lemma {:induction false} LogPrefix(worlds: seq<World>, k: nat, id: int)
    requires k <= |worlds|
    ensures ClientLog(worlds[..k], id) <= ClientLog(worlds, id)
  {
    hide ClientLog;
    if k < |worlds| {
      LogPrefix(worlds[..|worlds| - 1], k, id);
      assert worlds[..|worlds| - 1][..k] == worlds[..k];
      ClientLogGrows(worlds, id);
    } else {
      assert worlds[..k] == worlds;
    }
  }

  /** With every world received so far nothing is lost between any two samples of the client. */
  lemma AllReceivedNeighbours(worlds: seq<World>, k: nat, config: Client.Config, id: int, i: nat)
    requires k <= |worlds| && config.maxSamplesPerEntity > 0
    requires 0 < i < |Seen(worlds[..k], config, id)|
    ensures var p := Seen(worlds[..k], config, id);
      Increasing(p) && Increasing(ClientLog(worlds, id)) && Neighbours(ClientLog(worlds, id), p[i - 1], p[i])
  {
    hide Seen, ClientLog;
    var p, early, f := Seen(worlds[..k], config, id), ClientLog(worlds[..k], id), ClientLog(worlds, id);
    SeenStands(worlds[..k], config, id);
    LogPrefix(worlds, k, id);
    LogIncreases(worlds, id);
    var m := |early| - |p| + i;
    assert p[i - 1] == early[m - 1] == f[m - 1] && p[i] == early[m] == f[m];
    assert forall a :: 0 <= a < |p| ==> p[a] == early[|early| - |p| + a];
  }

  /** With snapshots lost, two samples are neighbours when no state of the enemy lies between them. */
  lemma NothingLostBetween(p: seq<Client.ActorSample>, f: seq<Client.ActorSample>, i: nat)
    requires Increasing(p) && Increasing(f) && KnownTo(p, f) && 0 < i < |p|
    requires forall s :: s in f ==> !(p[i - 1].serverTimeUs < s.serverTimeUs < p[i].serverTimeUs)
    ensures Neighbours(f, p[i - 1], p[i])
  {
    assert p[i - 1] in f && p[i] in f;
    var a :| 0 <= a < |f| && f[a] == p[i - 1];
    var b :| 0 <= b < |f| && f[b] == p[i];
    assert a < b;
    assert f[a + 1] in f;
  }

  /**
   What you see is what you hit, as far as it goes.  The client has received some of the server's worlds and its
   command arrives when the server has gone on; the cap of the server does not fire.  Where the time shown and the time
   asked for fall between the same two samples of the client with no state of the enemy lost between them, the enemy as
   shown is tested, and can be hit, if and only if the two times are one, so that the shot was made as the snapshot
   arrived, or the enemy has not moved between the two samples; and it was alive and has an extent.
   */
  lemma ShotTestsWhatYouSee(
    worlds: seq<World>, snapshots: seq<World>, clientConfig: Client.Config, config: Server.Config,
    simConfig: SimConfig<real>, id: int, current: seq<Server.HitscanTarget>, view: View, now: nat, i: nat
  )
    requires clientConfig.maxSamplesPerEntity > 0 && config.maxSamplesPerEntity > 0
    requires NoPlayerNamed(worlds, id) && worlds != [] && HasEnemy(worlds[|worlds| - 1], id)
    requires ServerLaws.SteadyUntil(config, ServerEvents(worlds, simConfig), now)
    requires var p, t := Seen(snapshots, clientConfig, id), Server.ClampRewindTime(config, AskedAt(view), now);
      0 < i < |p| && Neighbours(ClientLog(worlds, id), p[i - 1], p[i]) && p[0].serverTimeUs < ShownAt(view)
      && p[i - 1].serverTimeUs <= ShownWithin(p, ShownAt(view)) <= p[i].serverTimeUs
      && p[i - 1].serverTimeUs <= t <= p[i].serverTimeUs
    ensures var p, t := Seen(snapshots, clientConfig, id), Server.ClampRewindTime(config, AskedAt(view), now);
      var shown := Client.SampleAt(p, ShownAt(view));
      ClientLog(worlds, id) != []
      && (Tested(EvaluationTargets(ServerAfter(worlds, config, simConfig), AskedAt(view), now, current), id, shown)
          <==> (t == ShownWithin(p, ShownAt(view)) || SamePlace(p[i - 1].value, p[i].value))
               && AliveAt(ClientLog(worlds, id), t) && shown.radius > 0.0)
  {
    hide Seen, ClientLog, Tested, SamePlace, PlaceAt, Client.SampleAt, EvaluationTargets, Server.ClampRewindTime,
         ServerLaws.SteadyUntil, ServerAfter, ShownAt, AskedAt, ShownWithin, Neighbours, StandsFor, AliveAt;
    var p, f := Seen(snapshots, clientConfig, id), ClientLog(worlds, id);
    ShotTestsExactly(worlds, config, simConfig, id, Client.SampleAt(p, ShownAt(view)), current, AskedAt(view), now);
    SeenIncreases(snapshots, clientConfig, id);
    LogIncreases(worlds, id);
    ShownInSegment(f, p, ShownAt(view), Server.ClampRewindTime(config, AskedAt(view), now), i);
  }

  lemma SeenIncreases(snapshots: seq<World>, config: Client.Config, id: int)
    requires config.maxSamplesPerEntity > 0
    ensures Increasing(Seen(snapshots, config, id))
  {
    hide Seen, ClientLog;
    var p, f := Seen(snapshots, config, id), ClientLog(snapshots, id);
    SeenStands(snapshots, config, id);
    assert forall a :: 0 <= a < |p| ==> p[a] == f[|f| - |p| + a];
  }

  /**
   A shot made as the newest snapshot arrives, by a client that has received every world so far, hits what it sees,
   between its oldest sample of the enemy and its newest one, wherever the server has gone on to, exactly when the enemy
   was alive and has an extent.
   */
  lemma ShotOnArrivalHits(
    worlds: seq<World>, k: nat, clientConfig: Client.Config, config: Server.Config, simConfig: SimConfig<real>,
    id: int, current: seq<Server.HitscanTarget>, view: View, now: nat
  )
    requires clientConfig.maxSamplesPerEntity > 0 && config.maxSamplesPerEntity > 0
    requires NoPlayerNamed(worlds, id) && worlds != [] && HasEnemy(worlds[|worlds| - 1], id)
    requires ServerLaws.SteadyUntil(config, ServerEvents(worlds, simConfig), now)
    requires k <= |worlds| && view.elapsedUs == 0 && AskedAt(view) <= now <= AskedAt(view) + config.maxRewindUs
    requires var p := Seen(worlds[..k], clientConfig, id);
      p != [] && p[0].serverTimeUs < AskedAt(view) <= Last(p).serverTimeUs
    ensures var shown := Client.SampleAt(Seen(worlds[..k], clientConfig, id), ShownAt(view));
      ClientLog(worlds, id) != []
      && (Tested(EvaluationTargets(ServerAfter(worlds, config, simConfig), AskedAt(view), now, current), id, shown)
          <==> AliveAt(ClientLog(worlds, id), AskedAt(view)) && shown.radius > 0.0)
  {
    hide Seen, ClientLog, Tested, SamePlace, Client.SampleAt, EvaluationTargets, Server.ClampRewindTime,
         ServerLaws.SteadyUntil, ServerAfter, AliveAt;
    var p := Seen(worlds[..k], clientConfig, id);
    var i := BracketExists(p, AskedAt(view));
    AllReceivedNeighbours(worlds, k, clientConfig, id, i);
    ShotTestsWhatYouSee(worlds, worlds[..k], clientConfig, config, simConfig, id, current, view, now, i);
  }

  /**
   An input on which the two times matter: two worlds in which an enemy moves without a teleport, both sides holding
   both, and a command made some time after the second snapshot arrived, at times between the two.  The enemy as shown
   is not tested.
   */
  lemma ElapsedMisses(
    a: Client.Actor, b: Client.Actor, start: nat, end: nat, clientConfig: Client.Config, config: Server.Config,
    simConfig: SimConfig<real>, current: seq<Server.HitscanTarget>, view: View, now: nat
  )
    requires a.entityId == b.entityId && start < end <= now && end <= start + config.maxRewindUs
    requires clientConfig.maxSamplesPerEntity >= 2 && config.maxSamplesPerEntity >= 2
    requires !SamePlace(a, b) && !Client.Teleported(clientConfig, a, b)
    requires view.newestUs == end && start <= AskedAt(view) < ShownAt(view) <= end
    requires now <= AskedAt(view) + config.maxRewindUs
    ensures var worlds := [World(start, [], [a]), World(end, [], [b])];
      !Tested(EvaluationTargets(ServerAfter(worlds, config, simConfig), AskedAt(view), now, current), a.entityId,
              Client.SampleAt(Seen(worlds, clientConfig, a.entityId), ShownAt(view)))
  {
    hide Tested, SamePlace, Client.Teleported, Client.SampleAt, EvaluationTargets, ServerAfter,
         Server.RemoteActorTarget, ServerLaws.SteadyUntil, Held, Seen, PlaceAt;
    var worlds := [World(start, [], [a]), World(end, [], [b])];
    var p, id, t := [Sample(start, a), Sample(end, b)], a.entityId, AskedAt(view);
    SeenTwo(a, b, start, end, clientConfig);
    HeldTwo(a, b, start, end, config, simConfig);
    assert worlds[1].enemies == [b] && b in worlds[1].enemies;
    LogTwo(a, b, start, end);
    ShotTestsExactly(worlds, config, simConfig, id, Client.SampleAt(p, ShownAt(view)), current, t, now);
    assert Server.ClampRewindTime(config, t, now) == t;
    ShownInSegment(p, p, ShownAt(view), t, 1);
  }

  lemma LogTwo(a: Client.Actor, b: Client.Actor, start: nat, end: nat)
    requires a.entityId == b.entityId && start < end
    ensures ClientLog([World(start, [], [a]), World(end, [], [b])], a.entityId) == [Sample(start, a), Sample(end, b)]
  {
    assert ClientLog([], a.entityId) == [];
    hide ClientLog, FirstIndex;
    var w0, w1, id := World(start, [], [a]), World(end, [], [b]), a.entityId;
    assert [w0, w1][..1] == [w0] && [w0][..0] == [];
    assert ClientLaws.IdOf(a) == id && ClientLaws.IdOf(b) == id;
    FirstIs(ClientLaws.IdOf, [a], id, 0);
    FirstIs(ClientLaws.IdOf, [b], id, 0);
    ClientLogGrows([w0], id);
    ClientLogGrows([w0, w1], id);
  }

  // ---------------------------------------------------------------------------------------------
  // How far off a shot is

  /** Between two times the server's target moves no further than its speed allows. */
  lemma RewoundBetween(g: seq<Server.RewindSample>, axis: Axis, v: real, t: nat, u: nat)
    requires g != [] && Increasing(g) && v >= 0.0 && SpeedAtMost(ServerLaws.Coordinates(g, axis), v)
    ensures Abs(At(Server.RewindAt(g, u).center, axis) - At(Server.RewindAt(g, t).center, axis))
         <= v * Apart(t, u) as real
  {
    hide Server.RewindAt, SpeedAtMost, ServerLaws.Coordinates;
    if t <= u {
      ServerLaws.RewindLipschitz(g, axis, v, t, u);
    } else {
      ServerLaws.RewindLipschitz(g, axis, v, u, t);
    }
  }

  /** The enemy is tested under its id, and every target under it is that near to the state shown. */
  ghost predicate TestedWithin(
    targets: seq<Server.HitscanTarget>, id: int, shown: Client.Actor, axis: Axis, bound: real
  ) {
    (exists target :: target in targets && target.entityId == id)
    && forall target :: target in targets && target.entityId == id ==> OffBy(target, shown, axis) <= bound
  }

  function OffBy(target: Server.HitscanTarget, shown: Client.Actor, axis: Axis): real {
    Abs(At(target.center, axis) - (At(shown.position, axis) + Lift(axis)))
  }

  lemma Further(x: real, y: real, z: real, m: real, n: real)
    requires Abs(x - y) <= m && Abs(y - z) <= n
    ensures Abs(x - z) <= m + n
  {
  }

  /**
   How far off a shot is.  The client has received any of the worlds, each the first of its time, lost, repeated or
   overtaken in any way; the coordinate of the enemy moved no faster than `v` between the worlds.  Then the enemy is
   tested, and its target is off the state shown by no more than what the client did not see, as in the rewind at one
   time, and `v` times the time between the time shown and the time asked for.
   */
  lemma ShotNearWhatYouSee(
    worlds: seq<World>, snapshots: seq<World>, clientConfig: Client.Config, config: Server.Config,
    simConfig: SimConfig<real>, id: int, current: seq<Server.HitscanTarget>, view: View, now: nat, axis: Axis, v: real
  )
    requires clientConfig.maxSamplesPerEntity > 0 && config.maxSamplesPerEntity > 0
    requires NoPlayerNamed(worlds, id) && worlds != [] && HasEnemy(worlds[|worlds| - 1], id)
    requires ServerLaws.SteadyUntil(config, ServerEvents(worlds, simConfig), now)
    requires Delivered(snapshots, worlds) && Seen(snapshots, clientConfig, id) != []
    requires v >= 0.0 && SpeedAtMost(ServerLaws.Coordinates(ServerLog(worlds, config, simConfig, id), axis), v)
    ensures var p, t := Seen(snapshots, clientConfig, id), Server.ClampRewindTime(config, AskedAt(view), now);
      var targets := EvaluationTargets(ServerAfter(worlds, config, simConfig), AskedAt(view), now, current);
      TestedWithin(targets, id, Client.SampleAt(p, ShownAt(view)), axis,
                   Slack(p, ShownAt(view), v) + v * Apart(t, ShownAt(view)) as real)
  {
    hide Seen, Held, ServerLog, ClientLog, SpeedAtMost, Slack, KnownTo, AllKnown, EvaluationTargets, ServerAfter,
         ServerLaws.SteadyUntil, Server.ClampRewindTime, Server.RewindAt, Client.SampleAt, OffBy,
         ServerLaws.Coordinates, Delivered, Apart, ShownAt, AskedAt, TargetsOf, HasEnemy, NoPlayerNamed;
    var p, f := Seen(snapshots, clientConfig, id), ClientLog(worlds, id);
    var t, u := Server.ClampRewindTime(config, AskedAt(view), now), ShownAt(view);
    var g := TargetsOf(f);
    SeenKnown(snapshots, worlds, clientConfig, id);
    SameWorldsSameLog(worlds, config, simConfig, id);
    TargetsKnown(p, f);
    RewoundInWindow(worlds, config, simConfig, id, AskedAt(view), now);
    RewoundListed(worlds, config, simConfig, id, current, AskedAt(view), now);
    TargetsIncrease(f);
    RewoundWithSlack(p, g, u, t, axis, v);
  }

  /** The bound of the rewind at one time, and the way between two times on top of it. */
  lemma RewoundWithSlack(
    p: seq<Client.ActorSample>, g: seq<Server.RewindSample>, u: nat, t: nat, axis: Axis, v: real
  )
    requires p != [] && g != [] && Increasing(p) && Increasing(g) && AllKnown(p, g)
    requires v >= 0.0 && SpeedAtMost(ServerLaws.Coordinates(g, axis), v)
    ensures OffBy(Server.RewindAt(g, t), Client.SampleAt(p, u), axis) <= Slack(p, u, v) + v * Apart(t, u) as real
  {
    hide SpeedAtMost, ServerLaws.Coordinates, Server.RewindAt, Client.SampleAt, Slack, AllKnown, Increasing, Abs, Lift,
         At;
    CloseToShown(p, g, u, axis, v);
    RewoundBetween(g, axis, v, u, t);
    Further(At(Server.RewindAt(g, t).center, axis), At(Server.RewindAt(g, u).center, axis),
            At(Client.SampleAt(p, u).position, axis) + Lift(axis), v * Apart(u, t) as real, Slack(p, u, v));
  }

  lemma TargetsIncrease(f: seq<Client.ActorSample>)
    requires Increasing(f)
    ensures Increasing(TargetsOf(f))
  {
  }

  /** While nothing of the enemy is lost around the time shown, a shot is off by the elapsed time alone. */
  lemma ShotOffByElapsed(
    worlds: seq<World>, snapshots: seq<World>, clientConfig: Client.Config, config: Server.Config,
    simConfig: SimConfig<real>, id: int, current: seq<Server.HitscanTarget>, view: View, now: nat, axis: Axis, v: real,
    i: nat
  )
    requires clientConfig.maxSamplesPerEntity > 0 && config.maxSamplesPerEntity > 0
    requires NoPlayerNamed(worlds, id) && worlds != [] && HasEnemy(worlds[|worlds| - 1], id)
    requires ServerLaws.SteadyUntil(config, ServerEvents(worlds, simConfig), now)
    requires AskedAt(view) <= now <= AskedAt(view) + config.maxRewindUs
    requires var p := Seen(snapshots, clientConfig, id);
      0 < i < |p| && Neighbours(ClientLog(worlds, id), p[i - 1], p[i]) && Brackets(p, ShownAt(view), i)
    requires v >= 0.0 && SpeedAtMost(ServerLaws.Coordinates(ServerLog(worlds, config, simConfig, id), axis), v)
    ensures var p := Seen(snapshots, clientConfig, id);
      var targets := EvaluationTargets(ServerAfter(worlds, config, simConfig), AskedAt(view), now, current);
      TestedWithin(targets, id, Client.SampleAt(p, ShownAt(view)), axis,
                   v * view.elapsedUs as real)
  {
    hide Seen, Held, ServerLog, ClientLog, SpeedAtMost, EvaluationTargets, ServerAfter,
         ServerLaws.SteadyUntil, Server.RewindAt, Client.SampleAt, OffBy,
         ServerLaws.Coordinates, ShownAt, AskedAt, TargetsOf, HasEnemy, NoPlayerNamed, Neighbours, SamePlace, PlaceAt,
         AimedAt, ShownWithin, Increasing;
    var p, f := Seen(snapshots, clientConfig, id), ClientLog(worlds, id);
    var t, u := AskedAt(view), ShownAt(view);
    var g := TargetsOf(f);
    SeenIncreases(snapshots, clientConfig, id);
    SameWorldsSameLog(worlds, config, simConfig, id);
    RewoundInWindow(worlds, config, simConfig, id, t, now);
    RewoundListed(worlds, config, simConfig, id, current, t, now);
    TargetsIncrease(f);
    WithinWindow(p, u, i);
    ShownInSegment(f, p, u, u, i);
    LogPlace(f, u);
    AimedAtOne(Client.SampleAt(p, u), PlaceAt(f, u), Server.RewindAt(g, u));
    AskedBehindShown(view);
    RewoundNear(g, axis, v, u, t, view.elapsedUs, Client.SampleAt(p, u));
  }

  /** A little earlier the target is not far from the enemy it is aimed at. */
  lemma RewoundNear(
    g: seq<Server.RewindSample>, axis: Axis, v: real, u: nat, t: nat, elapsed: nat, shown: Client.Actor
  )
    requires g != [] && Increasing(g) && v >= 0.0 && SpeedAtMost(ServerLaws.Coordinates(g, axis), v)
    requires AimedAt(shown, Server.RewindAt(g, u)) && t <= u <= t + elapsed
    ensures OffBy(Server.RewindAt(g, t), shown, axis) <= v * elapsed as real
  {
    hide Server.RewindAt, SpeedAtMost, ServerLaws.Coordinates, Lift, At, AimedAt, Abs;
    AimedOnAxis(shown, Server.RewindAt(g, u), axis);
    RewoundBetween(g, axis, v, u, t);
    NoFurther(v, Apart(u, t), elapsed);
  }

  lemma NoFurther(v: real, m: nat, n: nat)
    requires v >= 0.0 && m <= n
    ensures v * m as real <= v * n as real
  {
  }

  lemma AimedOnAxis(shown: Client.Actor, target: Server.HitscanTarget, axis: Axis)
    requires AimedAt(shown, target)
    ensures At(target.center, axis) == At(shown.position, axis) + Lift(axis)
  {
  }

  /** A bracketed time is not beyond the newest sample. */
  lemma WithinWindow(p: seq<Client.ActorSample>, u: nat, i: nat)
    requires Increasing(p) && Brackets(p, u, i)
    ensures ShownWithin(p, u) == u && p[0].serverTimeUs < u
  {
    assert p[0].serverTimeUs <= p[i - 1].serverTimeUs && p[i].serverTimeUs <= Last(p).serverTimeUs;
  }

  // ---------------------------------------------------------------------------------------------
  // Interpolation switched off

  lemma NotBeforeAtSample(f: seq<Client.ActorSample>, j: nat)
    requires Increasing(f) && j < |f|
    ensures NotBefore(f, f[j].serverTimeUs) == f[j].value
  {
    if j > 0 {
      NotBeforeInBracket(f, f[j].serverTimeUs, j);
    }
  }

  /**
   With interpolation switched off the client shows its newest snapshot and asks for that very time: however long ago
   that arrived, the enemy is tested as shown, alive or not, as long as the snapshot is the first world of its time and
   no older than the rewind limit.
   */
  lemma UninterpolatedShotHits(
    worlds: seq<World>, k: nat, config: Server.Config, simConfig: SimConfig<real>, id: int,
    current: seq<Server.HitscanTarget>, elapsed: nat, now: nat
  )
    requires config.maxSamplesPerEntity > 0
    requires NoPlayerNamed(worlds, id) && worlds != [] && HasEnemy(worlds[|worlds| - 1], id)
    requires ServerLaws.SteadyUntil(config, ServerEvents(worlds, simConfig), now)
    requires FirstOfItsTime(worlds, k) && HasEnemy(worlds[k], id)
    requires worlds[k].timeUs <= now <= worlds[k].timeUs + config.maxRewindUs
    ensures var view := View(worlds[k].timeUs, elapsed, DelayMs(false, 0) * 1000);
      var i := FirstIndex(ClientLaws.IdOf, worlds[k].enemies, id);
      AskedAt(view) == worlds[k].timeUs
      && i < |worlds[k].enemies|
      && var shown := worlds[k].enemies[i];
         (Tested(EvaluationTargets(ServerAfter(worlds, config, simConfig), AskedAt(view), now, current), id, shown)
          <==> shown.alive && shown.health > 0.0 && shown.radius > 0.0)
  {
    hide ClientLog, Tested, SamePlace, EvaluationTargets, ServerLaws.SteadyUntil, ServerAfter, PlaceAt, FirstIndex;
    var w, f := worlds[k], ClientLog(worlds, id);
    var e :| 0 <= e < |w.enemies| && w.enemies[e].entityId == id;
    assert ClientLaws.IdOf(w.enemies[e]) == id;
    var shown := w.enemies[FirstIndex(ClientLaws.IdOf, w.enemies, id)];
    LogKnowsWorld(worlds, id, k);
    LogIncreases(worlds, id);
    var j :| 0 <= j < |f| && f[j] == Sample(w.timeUs, shown);
    LogPlaceAtSample(f, j);
    NotBeforeAtSample(f, j);
    SamePlaceSelf(shown);
    SamePlaceAs(shown, PlaceAt(f, w.timeUs), shown);
    ShotTestsExactly(worlds, config, simConfig, id, shown, current, w.timeUs, now);
  }

  // ---------------------------------------------------------------------------------------------
  // When the cap of the server does not fire

  function WorldTimes(worlds: seq<World>): set<nat> {
    set w | w in worlds :: w.timeUs
  }

  lemma WorldTimesSnoc(worlds: seq<World>)
    requires worlds != []
    ensures WorldTimes(worlds) == WorldTimes(worlds[..|worlds| - 1]) + {worlds[|worlds| - 1].timeUs}
  {
    assert worlds == worlds[..|worlds| - 1] + [worlds[|worlds| - 1]];
  }

  lemma RecordTimesSnoc(worlds: seq<World>, simConfig: SimConfig<real>)
    requires worlds != []
    ensures RecordPace.RecordTimes(ServerEvents(worlds, simConfig))
         == RecordPace.RecordTimes(ServerEvents(worlds[..|worlds| - 1], simConfig)) + {worlds[|worlds| - 1].timeUs}
  {
    var events := ServerEvents(worlds, simConfig);
    assert events[..|events| - 1] == ServerEvents(worlds[..|worlds| - 1], simConfig);
  }

  lemma {:induction false} WorldsRecord(worlds: seq<World>, simConfig: SimConfig<real>)
    ensures RecordPace.RecordTimes(ServerEvents(worlds, simConfig)) == WorldTimes(worlds)
  {
    if worlds != [] {
      hide WorldTimes, ServerEvents, RecordPace.RecordTimes;
      WorldsRecord(worlds[..|worlds| - 1], simConfig);
      WorldTimesSnoc(worlds);
      RecordTimesSnoc(worlds, simConfig);
    }
  }

  /** Worlds at a pace for which the cap is wide. */
  lemma PacedWorldsSteady(
    worlds: seq<World>, config: Server.Config, simConfig: SimConfig<real>, spacing: nat, extra: nat, now: nat
  )
    requires spacing > 0 && RecordPace.Wide(config, spacing, extra)
    requires RecordPace.Bursty(WorldTimes(worlds), spacing, extra)
    requires forall w :: w in worlds ==> w.timeUs <= now
    ensures ServerLaws.SteadyUntil(config, ServerEvents(worlds, simConfig), now)
  {
    hide RecordPace.Wide, RecordPace.Bursty, RecordPace.RecordTimes, ServerLaws.SteadyUntil;
    WorldsRecord(worlds, simConfig);
    OnlyRecorded(worlds, simConfig);
    RecordPace.PacedSteady(config, ServerEvents(worlds, simConfig), spacing, extra, now, WorldTimes(worlds));
  }

  /**
   The exact law in a hosting process that ticks 60 times a second or more, with nothing known of the run but that the
   server records at network steps: no cap, no pace and no history appears in it.
   */
  lemma HostedShotTestsExactly(
    worlds: seq<World>, maxRewindMs: U32, tickRateHz: U16, simConfig: SimConfig<real>, id: int, shown: Client.Actor,
    current: seq<Server.HitscanTarget>, asked: nat, steps: nat, now: nat
  )
    requires RecordPace.EffectiveRate(tickRateHz) >= 60 && HostClock.ClockAt(steps) <= now
    requires HostClock.AtSteps(WorldTimes(worlds), steps)
    requires NoPlayerNamed(worlds, id) && worlds != [] && HasEnemy(worlds[|worlds| - 1], id)
    ensures var config := RecordPace.ServerLimits(maxRewindMs, tickRateHz);
      var targets := EvaluationTargets(ServerAfter(worlds, config, simConfig), asked, now, current);
      ClientLog(worlds, id) != []
      && (Tested(targets, id, shown)
          <==> HitAt(ClientLog(worlds, id), Server.ClampRewindTime(config, asked, now), shown))
  {
    hide ClientLog, Tested, HitAt, EvaluationTargets, Server.ClampRewindTime, ServerLaws.SteadyUntil,
         ServerAfter, RecordPace.RecordTimes, HostClock.AtSteps, HostClock.ClockAt, Held;
    var config := RecordPace.ServerLimits(maxRewindMs, tickRateHz);
    WorldsRecord(worlds, simConfig);
    OnlyRecorded(worlds, simConfig);
    HostClock.HostRunSteady(maxRewindMs, tickRateHz, ServerEvents(worlds, simConfig), steps, now);
    ShotTestsExactly(worlds, config, simConfig, id, shown, current, asked, now);
  }
}
