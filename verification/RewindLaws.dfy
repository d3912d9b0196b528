/** What the server's rewind answers mean, and that pruning cannot be seen in them. */
module RewindLaws {
  import opened Geometry
  import opened LagCompensation
  import opened Paths
  import opened Timeline

  // ---------------------------------------------------------------------------------------------
  // One history

  lemma RewindInBracket(h: seq<RewindSample>, t: nat, i: nat)
    requires Increasing(h) && Brackets(h, t, i)
    ensures RewindAt(h, t) == InterpolateTarget(h[i - 1], h[i], t)
  {
    SearchFinds(h, t, 1, i);
    if t == Last(h).serverTimeUs {
      InterpolateAtEnd(h[i - 1], h[i]);
    }
  }

  lemma InterpolateAtEnd(from: RewindSample, to: RewindSample)
    requires from.serverTimeUs < to.serverTimeUs
    ensures InterpolateTarget(from, to, to.serverTimeUs) == to.value
  {
    hide Lerp, Alpha;
    var a, b, s, e := from.value, to.value, from.serverTimeUs, to.serverTimeUs;
    SegmentEnds(a.center.x, b.center.x, s, e);
    SegmentEnds(a.center.y, b.center.y, s, e);
    SegmentEnds(a.center.z, b.center.z, s, e);
    SegmentEnds(a.radius, b.radius, s, e);
  }

  /** At the time of a sample the rewind answers that sample. */
  lemma RewindAtSample(h: seq<RewindSample>, k: nat)
    requires Increasing(h) && k < |h|
    ensures RewindAt(h, h[k].serverTimeUs) == h[k].value
  {
    if 0 < k {
      RewindInBracket(h, h[k].serverTimeUs, k);
      InterpolateAtEnd(h[k - 1], h[k]);
    }
  }

  /** From the newest sample on the rewind answers the newest sample, unless even the first one is later. */
  lemma RewindAfterLast(h: seq<RewindSample>, t: nat)
    requires h != [] && t >= Last(h).serverTimeUs && (t > h[0].serverTimeUs || |h| == 1)
    ensures RewindAt(h, t) == Last(h).value
  {
  }

  /** A pruned history answers like the full one, for times from its first sample on. */
  lemma PruningInvisible(p: seq<RewindSample>, f: seq<RewindSample>, t: nat)
    requires Increasing(f) && SuffixOf(p, f) && p != []
    ensures RewindAt(p, t) == RewindAt(f, Max(t, p[0].serverTimeUs))
  {
    hide InterpolateTarget;
    var cut := |f| - |p|;
    if t <= p[0].serverTimeUs {
      assert f[cut] == p[0];
      RewindAtSample(f, cut);
    } else if t < Last(p).serverTimeUs {
      var i := BracketExists(p, t);
      BracketShifts(p, f, t, i);
      RewindInBracket(p, t, i);
      RewindInBracket(f, t, cut + i);
    }
  }

  function Coordinates(h: seq<RewindSample>, axis: Axis): (r: seq<Sample<real>>)
    ensures |r| == |h|
    ensures forall i :: 0 <= i < |h| ==> r[i] == Sample(h[i].serverTimeUs, At(h[i].value.center, axis))
  {
    seq(|h|, i requires 0 <= i < |h| => Sample(h[i].serverTimeUs, At(h[i].value.center, axis)))
  }

  /** Each coordinate of the rewound centre is on the piecewise linear path through the samples. */
  lemma RewindIsPath(h: seq<RewindSample>, t: nat, axis: Axis)
    requires h != [] && Increasing(h)
    ensures At(RewindAt(h, t).center, axis) == Path(Coordinates(h, axis), t)
  {
    var c := Coordinates(h, axis);
    if |h| > 1 && t > h[0].serverTimeUs {
      if t >= Last(h).serverTimeUs {
        PathAfterLast(c, t);
      } else {
        var i := BracketExists(h, t);
        RewindInBracket(h, t, i);
        PathInBracket(c, t, i);
      }
    }
  }

  /** Whether the rewound target is alive, and its id, are those of the first sample not before the time. */
  lemma RewindFlags(h: seq<RewindSample>, t: nat)
    requires h != [] && Increasing(h)
    ensures RewindAt(h, t).alive == NotBefore(h, t).alive && RewindAt(h, t).entityId == NotBefore(h, t).entityId
  {
    if |h| > 1 && t > h[0].serverTimeUs {
      if t >= Last(h).serverTimeUs {
        NotBeforeAfterLast(h, t);
      } else {
        var i := BracketExists(h, t);
        RewindInBracket(h, t, i);
        NotBeforeInBracket(h, t, i);
      }
    }
  }

  function Radii(h: seq<RewindSample>): (r: seq<Sample<real>>)
    ensures |r| == |h| && forall i :: 0 <= i < |h| ==> r[i] == Sample(h[i].serverTimeUs, h[i].value.radius)
  {
    seq(|h|, i requires 0 <= i < |h| => Sample(h[i].serverTimeUs, h[i].value.radius))
  }

  /** So is the radius on the path of the radii. */
  lemma RewindRadiusIsPath(h: seq<RewindSample>, t: nat)
    requires h != [] && Increasing(h)
    ensures RewindAt(h, t).radius == Path(Radii(h), t)
  {
    var c := Radii(h);
    if |h| > 1 && t > h[0].serverTimeUs {
      if t >= Last(h).serverTimeUs {
        PathAfterLast(c, t);
      } else {
        var i := BracketExists(h, t);
        RewindInBracket(h, t, i);
        PathInBracket(c, t, i);
      }
    }
  }

  /** The targets of the entities of `order`, one each and in that order, when all have a history. */
  lemma {:induction false} RewindAllInOrder(hs: TargetHistories, order: seq<int>, t: nat)
    requires forall id :: id in order ==> HistoryOf(hs, id) != []
    ensures |RewindAll(hs, order, t)| == |order|
    ensures forall i :: 0 <= i < |order| ==> RewindAll(hs, order, t)[i] == RewindAt(HistoryOf(hs, order[i]), t)
  {
    hide RewindAt;
    if order != [] {
      var init := order[..|order| - 1];
      assert forall id :: id in init ==> id in order;
      assert order[|order| - 1] in order;
      RewindAllInOrder(hs, init, t);
    }
  }

  /** Rewinding is no faster than the entity was between its samples. */
  lemma RewindLipschitz(h: seq<RewindSample>, axis: Axis, v: real, t: nat, u: nat)
    requires h != [] && Increasing(h) && v >= 0.0 && t <= u
    requires SpeedAtMost(Coordinates(h, axis), v)
    ensures Abs(At(RewindAt(h, u).center, axis) - At(RewindAt(h, t).center, axis)) <= v * (u - t) as real
  {
    RewindIsPath(h, t, axis);
    RewindIsPath(h, u, axis);
    PathLipschitz(Coordinates(h, axis), v, t, u);
  }

  // ---------------------------------------------------------------------------------------------
  // What pruning leaves

  /** The first sample kept is at or before the start of the rewind window, so those before it are not needed. */
  predicate CoversStart(r: seq<RewindSample>, config: Config, latest: nat) {
    r != [] && r[0].serverTimeUs + config.maxRewindUs <= latest
  }

  /** Nothing is kept that could go: no two samples at or before the start of the window, and no more than the cap. */
  predicate NoneTooMany(r: seq<RewindSample>, config: Config, latest: nat) {
    |r| <= config.maxSamplesPerEntity
    && (|r| > 1 ==> r[1].serverTimeUs + config.maxRewindUs > latest)
  }

  /**
   Pruning keeps as long an end of an increasing history as it may, and no longer: the whole of it, or as much as the
   cap holds, or what begins at or before the start of the window.
   */
  lemma PrunedExactly(h: seq<RewindSample>, config: Config, latest: nat)
    requires Increasing(h)
    ensures var r := Pruned(h, config, latest);
      SuffixOf(r, h) && (r == h || |r| == config.maxSamplesPerEntity || CoversStart(r, config, latest))
      && (latest > config.maxRewindUs ==> NoneTooMany(r, config, latest))
      && (latest <= config.maxRewindUs ==> r == Capped(h, config.maxSamplesPerEntity))
  {
    var aged, cap := AgedAt(h, config, latest), config.maxSamplesPerEntity;
    var r := Pruned(h, config, latest);
    assert r == Capped(aged, cap);
    CappedCases(aged, cap);
    AgedExactly(h, config, latest);
    hide Pruned, AgedAt, Capped, SuffixOf, Increasing;
    if |aged| > cap > 1 {
      CappedLater(aged, h, config);
    }
  }

  /** New limits prune every history by them in the same way, and forget none that has room. */
  lemma ReconfiguredExactly(s: Service, config: Config, latest: nat, id: int)
    requires Increasing(HistoryOf(s.histories, id))
    ensures var h, r := HistoryOf(s.histories, id), HistoryOf(Reconfigured(s, config, latest).histories, id);
      SuffixOf(r, h) && (r == h || |r| == config.maxSamplesPerEntity || CoversStart(r, config, latest))
      && |r| <= config.maxSamplesPerEntity
      && (latest > config.maxRewindUs ==> NoneTooMany(r, config, latest))
  {
    PrunedExactly(HistoryOf(s.histories, id), config, latest);
    hide CoversStart, NoneTooMany;
  }

  lemma AgedExactly(h: seq<RewindSample>, config: Config, latest: nat)
    ensures var aged := AgedAt(h, config, latest);
      SuffixOf(aged, h) && (h == [] ==> aged == [])
      && (aged == h || CoversStart(aged, config, latest))
      && (latest > config.maxRewindUs && |aged| > 1 ==> aged[1].serverTimeUs + config.maxRewindUs > latest)
      && (latest <= config.maxRewindUs ==> aged == h)
  {
    hide Aged;
    if h != [] {
      AgedAtReachesBack(h, config, latest);
      if latest > config.maxRewindUs {
        AgedStartsLate(h, latest - config.maxRewindUs);
      }
    }
  }

  lemma CappedLater(aged: seq<RewindSample>, h: seq<RewindSample>, config: Config)
    requires SuffixOf(aged, h) && Increasing(h)
    requires 1 < config.maxSamplesPerEntity < |aged|
    ensures Capped(aged, config.maxSamplesPerEntity)[1].serverTimeUs > aged[1].serverTimeUs
  {
    var k, n := config.maxSamplesPerEntity, |aged|;
    var off := |h| - n;
    assert Capped(aged, k)[1] == aged[n - k + 1] == h[off + n - k + 1] && aged[1] == h[off + 1];
  }

  lemma {:induction false} AgedStartsLate(h: seq<RewindSample>, earliest: nat)
    ensures var r := Aged(h, earliest); |r| > 1 ==> r[1].serverTimeUs > earliest
  {
    if |h| > 1 && h[1].serverTimeUs <= earliest {
      AgedStartsLate(h[1..], earliest);
    }
  }

  // ---------------------------------------------------------------------------------------------
  // Runs of the service, and of a service that never prunes

  datatype Event =
    | Recorded(targets: seq<HitscanTarget>, timeUs: nat)
    | NewConfig(config: Config, latestUs: nat)
    | Cleared

  function Step(s: Service, e: Event): Service {
    match e
    case Recorded(targets, t) => Record(s, targets, t)
    case NewConfig(config, latest) => Reconfigured(s, config, latest)
    case Cleared => Service(s.config, map[], [])
  }

  function Run(config: Config, events: seq<Event>): Service {
    if events == [] then Service(config, map[], [])
    else Step(Run(config, events[..|events| - 1]), events[|events| - 1])
  }

  function IdOf(target: HitscanTarget): int {
    target.entityId
  }

  /** The same step without any pruning. */
  function FullStep(s: Service, e: Event): Service {
    match e
    case Recorded(targets, t) => s.(histories := KeepAll(s.histories, IdOf, targets, t), order := Ids(targets))
    case NewConfig(config, latest) => s.(config := config)
    case Cleared => Service(s.config, map[], [])
  }

  function FullRun(config: Config, events: seq<Event>): Service {
    if events == [] then Service(config, map[], [])
    else FullStep(FullRun(config, events[..|events| - 1]), events[|events| - 1])
  }

  lemma PrunedStandsFor(p: seq<RewindSample>, f: seq<RewindSample>, config: Config, latest: nat)
    requires StandsFor(p, f) && config.maxSamplesPerEntity > 0
    ensures StandsFor(Pruned(p, config, latest), f)
  {
    SuffixTrans(Pruned(p, config, latest), p, f);
  }

  lemma RecordTargetStands(ps: TargetHistories, fs: TargetHistories, config: Config, target: HitscanTarget, t: nat)
    requires AllStandFor(ps, fs) && config.maxSamplesPerEntity > 0
    ensures AllStandFor(RecordTarget(ps, config, target, t), Keep(fs, target.entityId, t, target))
  {
    hide Pruned, StandsFor;
    var id := target.entityId;
    var p, f := HistoryOf(ps, id), HistoryOf(fs, id);
    assert Accepts(p, t) == Accepts(f, t) by {
      SameNewest(p, f);
    }
    if Accepts(p, t) {
      AppendStandsFor(p, f, Sample(t, target));
      PrunedStandsFor(p + [Sample(t, target)], f + [Sample(t, target)], config, t);
      forall other
        ensures StandsFor(HistoryOf(RecordTarget(ps, config, target, t), other), HistoryOf(Keep(fs, target.entityId,
            t, target), other))
      {
        assert StandsFor(HistoryOf(ps, other), HistoryOf(fs, other));
      }
    }
  }

  lemma {:induction false} RecordTargetsStands(
    ps: TargetHistories, fs: TargetHistories, config: Config, targets: seq<HitscanTarget>, t: nat
  )
    requires AllStandFor(ps, fs) && config.maxSamplesPerEntity > 0
    ensures AllStandFor(RecordTargets(ps, config, targets, t), KeepAll(fs, IdOf, targets, t))
  {
    hide AllStandFor, RecordTarget, Keep;
    if targets != [] {
      var n := |targets| - 1;
      RecordTargetsStands(ps, fs, config, targets[..n], t);
      RecordTargetStands(RecordTargets(ps, config, targets[..n], t), KeepAll(fs, IdOf, targets[..n], t),
                         config, targets[n], t);
    }
  }

  lemma ReconfiguredStands(s: Service, fs: TargetHistories, config: Config, latest: nat)
    requires AllStandFor(s.histories, fs) && config.maxSamplesPerEntity > 0
    ensures AllStandFor(Reconfigured(s, config, latest).histories, fs)
  {
    hide Pruned, StandsFor;
    var after := Reconfigured(s, config, latest).histories;
    forall id
      ensures StandsFor(HistoryOf(after, id), HistoryOf(fs, id))
    {
      assert StandsFor(HistoryOf(s.histories, id), HistoryOf(fs, id));
      if id in s.histories {
        PrunedStandsFor(s.histories[id], HistoryOf(fs, id), config, latest);
      }
    }
  }

  /** The cap is at least one in every configuration the service runs with. */
  ghost predicate CapsPositive(config: Config, events: seq<Event>) {
    config.maxSamplesPerEntity > 0
    && forall e :: e in events && e.NewConfig? ==> e.config.maxSamplesPerEntity > 0
  }

  lemma {:induction false} RunStands(config: Config, events: seq<Event>)
    requires CapsPositive(config, events)
    ensures AllStandFor(Run(config, events).histories, FullRun(config, events).histories)
    ensures Run(config, events).order == FullRun(config, events).order
    ensures Run(config, events).config == FullRun(config, events).config
    ensures Run(config, events).config.maxSamplesPerEntity > 0
  {
    hide AllStandFor, RecordTargets, KeepAll;
    if events == [] {
      NothingStands<HitscanTarget>();
    } else {
      var init, e := events[..|events| - 1], events[|events| - 1];
      RunStands(config, init);
      var s, f := Run(config, init), FullRun(config, init);
      match e
      case Recorded(targets, t) => RecordTargetsStands(s.histories, f.histories, s.config, targets, t);
      case NewConfig(newConfig, latest) => ReconfiguredStands(s, f.histories, newConfig, latest);
      case Cleared => NothingStands<HitscanTarget>();
    }
  }

  /**
   In every run the histories of the service are what the never-pruned run keeps, cut at the front: the newest
   order is the same, an entity is known to both or to neither, and the rewind of any time is the full rewind
   of that time or of the oldest kept sample, whichever is later.
   */
  lemma RunPruningInvisible(config: Config, events: seq<Event>, id: int, t: nat)
    requires CapsPositive(config, events)
    ensures var s, f := Run(config, events), FullRun(config, events);
      s.order == f.order
      && var p, full := HistoryOf(s.histories, id), HistoryOf(f.histories, id);
      Increasing(full) && SuffixOf(p, full) && (p == [] <==> full == [])
      && |p| <= s.config.maxSamplesPerEntity
      && (p != [] ==> RewindAt(p, t) == RewindAt(full, Max(t, p[0].serverTimeUs)))
  {
    RunStands(config, events);
    var p, full := HistoryOf(Run(config, events).histories, id), HistoryOf(FullRun(config, events).histories, id);
    assert StandsFor(p, full);
    RunWithinCap(config, events, id);
    if p != [] {
      PruningInvisible(p, full, t);
    }
  }

  /**
   What the history lacks of the full one is beyond the cap, or was not needed for the window at its newest sample.
   */
  ghost predicate NeededKept(p: seq<RewindSample>, f: seq<RewindSample>, config: Config) {
    p == f || |p| == config.maxSamplesPerEntity || (p != [] && CoversStart(p, config, Last(p).serverTimeUs))
  }

  /** And it holds nothing more. */
  ghost predicate OnlyNeeded(p: seq<RewindSample>, config: Config) {
    p != [] && Last(p).serverTimeUs > config.maxRewindUs ==> NoneTooMany(p, config, Last(p).serverTimeUs)
  }

  ghost predicate PrunedRightly(p: seq<RewindSample>, f: seq<RewindSample>, config: Config) {
    StandsFor(p, f) && NeededKept(p, f, config) && OnlyNeeded(p, config)
  }

  ghost predicate AllPrunedRightly(ps: TargetHistories, fs: TargetHistories, config: Config) {
    forall id :: PrunedRightly(HistoryOf(ps, id), HistoryOf(fs, id), config)
  }

  lemma GrownPrunedRightly(p: seq<RewindSample>, f: seq<RewindSample>, config: Config, s: RewindSample)
    requires PrunedRightly(p, f, config) && Accepts(p, s.serverTimeUs) && config.maxSamplesPerEntity > 0
    ensures PrunedRightly(Pruned(p + [s], config, s.serverTimeUs), f + [s], config)
  {
    var h := p + [s];
    var r := Pruned(h, config, s.serverTimeUs);
    AppendStandsFor(p, f, s);
    PrunedStandsFor(h, f + [s], config, s.serverTimeUs);
    StandsForIncreases(h, f + [s]);
    SameNewest(r, f + [s]);
    assert |r| <= config.maxSamplesPerEntity;
    hide Pruned, StandsFor, Increasing, SuffixOf, NeededKept, OnlyNeeded;
    PrunedExactly(h, config, s.serverTimeUs);
    hide CoversStart, NoneTooMany;
    GrownNeeded(p, f, config, s, r);
  }

  lemma GrownNeeded(p: seq<RewindSample>, f: seq<RewindSample>, config: Config, s: RewindSample, r: seq<RewindSample>)
    requires NeededKept(p, f, config) && Accepts(p, s.serverTimeUs) && r != [] && Last(r) == s
    requires |r| <= config.maxSamplesPerEntity
    requires r == p + [s] || |r| == config.maxSamplesPerEntity || CoversStart(r, config, s.serverTimeUs)
    requires s.serverTimeUs > config.maxRewindUs ==> NoneTooMany(r, config, s.serverTimeUs)
    ensures NeededKept(r, f + [s], config) && OnlyNeeded(r, config)
  {
    hide NoneTooMany;
  }

  lemma StandsForIncreases(p: seq<RewindSample>, f: seq<RewindSample>)
    requires StandsFor(p, f)
    ensures Increasing(p)
  {
    assert forall i :: 0 <= i < |p| ==> p[i] == f[|f| - |p| + i];
  }

  lemma RecordTargetPrunesRightly(
    ps: TargetHistories, fs: TargetHistories, config: Config, target: HitscanTarget, t: nat
  )
    requires AllPrunedRightly(ps, fs, config) && config.maxSamplesPerEntity > 0
    ensures AllPrunedRightly(RecordTarget(ps, config, target, t), Keep(fs, target.entityId, t, target), config)
  {
    hide Pruned, SuffixOf, StandsFor, NeededKept, OnlyNeeded;
    var id := target.entityId;
    var p, f := HistoryOf(ps, id), HistoryOf(fs, id);
    assert PrunedRightly(p, f, config);
    SameNewest(p, f);
    if Accepts(p, t) {
      GrownPrunedRightly(p, f, config, Sample(t, target));
      hide PrunedRightly;
      forall other
        ensures PrunedRightly(HistoryOf(RecordTarget(ps, config, target, t), other),
                              HistoryOf(Keep(fs, target.entityId, t, target), other), config)
      {
        assert PrunedRightly(HistoryOf(ps, other), HistoryOf(fs, other), config);
      }
    }
  }

  lemma {:induction false} RecordTargetsPruneRightly(
    ps: TargetHistories, fs: TargetHistories, config: Config, targets: seq<HitscanTarget>, t: nat
  )
    requires AllPrunedRightly(ps, fs, config) && config.maxSamplesPerEntity > 0
    ensures AllPrunedRightly(RecordTargets(ps, config, targets, t), KeepAll(fs, IdOf, targets, t), config)
  {
    hide AllPrunedRightly, RecordTarget, Keep;
    if targets != [] {
      var n := |targets| - 1;
      RecordTargetsPruneRightly(ps, fs, config, targets[..n], t);
      RecordTargetPrunesRightly(RecordTargets(ps, config, targets[..n], t), KeepAll(fs, IdOf, targets[..n], t),
                                config, targets[n], t);
    }
  }

  /**
   In every run that keeps its limits, each history is its whole log, or as long as the cap allows, or reaches back to
   the start of the window at its newest sample; and it holds at most one sample at or before that start.
   */
  lemma {:induction false} RunPrunesRightly(config: Config, events: seq<Event>)
    requires config.maxSamplesPerEntity > 0 && forall e :: e in events ==> !e.NewConfig?
    ensures AllPrunedRightly(Run(config, events).histories, FullRun(config, events).histories, config)
    ensures Run(config, events).config == config
  {
    hide AllPrunedRightly, RecordTargets, KeepAll;
    if events == [] {
      NothingPruned(config);
    } else {
      var init, e := events[..|events| - 1], events[|events| - 1];
      assert e in events && forall x :: x in init ==> x in events;
      RunPrunesRightly(config, init);
      match e
      case Recorded(targets, t) =>
        RecordTargetsPruneRightly(Run(config, init).histories, FullRun(config, init).histories, config, targets, t);
      case NewConfig(_, _) =>
      case Cleared => NothingPruned(config);
    }
  }

  lemma NothingPruned(config: Config)
    ensures AllPrunedRightly(map[], map[], config)
  {
  }

  /** No history ever holds more samples than the configuration allows, whatever the cap. */
  lemma {:induction false} RunWithinCap(config: Config, events: seq<Event>, id: int)
    ensures |HistoryOf(Run(config, events).histories, id)| <= Run(config, events).config.maxSamplesPerEntity
  {
    hide Pruned, SuffixOf;
    if events != [] {
      var init, e := events[..|events| - 1], events[|events| - 1];
      RunWithinCap(config, init, id);
      if e.Recorded? {
        RecordTargetsWithinCap(Run(config, init).histories, Run(config, init).config, e.targets, e.timeUs, id);
      }
    }
  }

  lemma {:induction false} RecordTargetsWithinCap(
    hs: TargetHistories, config: Config, targets: seq<HitscanTarget>, t: nat, id: int
  )
    requires |HistoryOf(hs, id)| <= config.maxSamplesPerEntity
    ensures |HistoryOf(RecordTargets(hs, config, targets, t), id)| <= config.maxSamplesPerEntity
  {
    hide Pruned, SuffixOf;
    if targets != [] {
      RecordTargetsWithinCap(hs, config, targets[..|targets| - 1], t, id);
    }
  }

  /** Every entity of the order that has a history is among the rewound targets. */
  lemma {:induction false} RewindAllHas(hs: TargetHistories, order: seq<int>, t: nat, id: int)
    requires id in order && HistoryOf(hs, id) != []
    ensures RewindAt(HistoryOf(hs, id), t) in RewindAll(hs, order, t)
  {
    hide RewindAt;
    var n := |order| - 1;
    if order[n] != id {
      assert order == order[..n] + [order[n]];
      RewindAllHas(hs, order[..n], t, id);
    }
  }

  /** Nothing but those is rewound. */
  lemma {:induction false} RewindAllOnly(hs: TargetHistories, order: seq<int>, t: nat, target: HitscanTarget)
    requires target in RewindAll(hs, order, t)
    ensures exists id :: id in order && HistoryOf(hs, id) != [] && target == RewindAt(HistoryOf(hs, id), t)
  {
    hide RewindAt;
    var init, id := order[..|order| - 1], order[|order| - 1];
    if target in RewindAll(hs, init, t) {
      RewindAllOnly(hs, init, t, target);
    } else {
      assert id in order && target == RewindAt(HistoryOf(hs, id), t);
    }
  }

  ghost predicate Own(h: seq<RewindSample>, id: int) {
    forall i :: 0 <= i < |h| ==> h[i].value.entityId == id
  }

  /** Every history holds targets of its own entity only. */
  ghost predicate OwnTargets(hs: TargetHistories) {
    forall id :: Own(HistoryOf(hs, id), id)
  }

  lemma RewindOwn(hs: TargetHistories, id: int, t: nat)
    requires OwnTargets(hs) && HistoryOf(hs, id) != []
    ensures RewindAt(HistoryOf(hs, id), t).entityId == id
  {
    assert Own(HistoryOf(hs, id), id);
  }

  lemma PrunedOwn(h: seq<RewindSample>, config: Config, latest: nat, id: int)
    requires Own(h, id)
    ensures Own(Pruned(h, config, latest), id)
  {
    hide Pruned, Own;
    assert SuffixOf(Pruned(h, config, latest), h);
    SuffixOwn(Pruned(h, config, latest), h, id);
  }

  lemma SuffixOwn(r: seq<RewindSample>, h: seq<RewindSample>, id: int)
    requires Own(h, id) && SuffixOf(r, h)
    ensures Own(r, id)
  {
  }

  lemma RecordTargetOwn(hs: TargetHistories, config: Config, target: HitscanTarget, t: nat)
    requires OwnTargets(hs)
    ensures OwnTargets(RecordTarget(hs, config, target, t))
  {
    hide Pruned, SuffixOf, Own;
    var id, h := target.entityId, HistoryOf(hs, target.entityId);
    AppendOwn(h, target, t);
    PrunedOwn(h + [Sample(t, target)], config, t, id);
    forall other
      ensures Own(HistoryOf(RecordTarget(hs, config, target, t), other), other)
    {
      assert Own(HistoryOf(hs, other), other);
    }
  }

  lemma AppendOwn(h: seq<RewindSample>, target: HitscanTarget, t: nat)
    requires Own(h, target.entityId)
    ensures Own(h + [Sample(t, target)], target.entityId)
  {
  }

  lemma {:induction false} RecordTargetsOwn(hs: TargetHistories, config: Config, targets: seq<HitscanTarget>, t: nat)
    requires OwnTargets(hs)
    ensures OwnTargets(RecordTargets(hs, config, targets, t))
  {
    hide OwnTargets, RecordTarget;
    if targets != [] {
      var n := |targets| - 1;
      RecordTargetsOwn(hs, config, targets[..n], t);
      RecordTargetOwn(RecordTargets(hs, config, targets[..n], t), config, targets[n], t);
    }
  }

  lemma ReconfiguredOwn(s: Service, config: Config, latest: nat)
    requires OwnTargets(s.histories)
    ensures OwnTargets(Reconfigured(s, config, latest).histories)
  {
    hide Pruned, SuffixOf, Own;
    forall id
      ensures Own(HistoryOf(Reconfigured(s, config, latest).histories, id), id)
    {
      assert Own(HistoryOf(s.histories, id), id);
      if id in s.histories {
        PrunedOwn(s.histories[id], config, latest, id);
      }
    }
  }

  lemma {:induction false} RunOwnTargets(config: Config, events: seq<Event>)
    ensures OwnTargets(Run(config, events).histories)
  {
    hide RecordTargets, Own;
    if events == [] {
      NothingOwn();
    } else {
      var init, e := events[..|events| - 1], events[|events| - 1];
      RunOwnTargets(config, init);
      hide OwnTargets;
      match e
      case Recorded(targets, t) =>
        RecordTargetsOwn(Run(config, init).histories, Run(config, init).config, targets, t);
      case NewConfig(newConfig, latest) => ReconfiguredOwn(Run(config, init), newConfig, latest);
      case Cleared => NothingOwn();
    }
  }

  lemma NothingOwn()
    ensures OwnTargets(map[])
  {
  }

  // ---------------------------------------------------------------------------------------------
  // The answer follows the newest record

  lemma RecordTargetPresent(hs: TargetHistories, config: Config, target: HitscanTarget, t: nat, id: int)
    requires config.maxSamplesPerEntity > 0 && (id == target.entityId || HistoryOf(hs, id) != [])
    ensures HistoryOf(RecordTarget(hs, config, target, t), id) != []
  {
    var h := HistoryOf(hs, target.entityId) + [Sample(t, target)];
    CappedCases(AgedAt(h, config, t), config.maxSamplesPerEntity);
    hide AgedAt, Capped, SuffixOf;
  }

  lemma {:induction false} RecordTargetsPresent(
    hs: TargetHistories, config: Config, targets: seq<HitscanTarget>, t: nat, i: nat
  )
    requires config.maxSamplesPerEntity > 0 && i < |targets|
    ensures HistoryOf(RecordTargets(hs, config, targets, t), targets[i].entityId) != []
  {
    hide RecordTarget;
    var n := |targets| - 1;
    if i < n {
      RecordTargetsPresent(hs, config, targets[..n], t, i);
    }
    RecordTargetPresent(RecordTargets(hs, config, targets[..n], t), config, targets[n], t, targets[i].entityId);
  }

  /** In every run with room for a sample, a request is answered with one target for each recorded last, in order. */
  lemma AnswersInOrder(
    config: Config, events: seq<Event>, targets: seq<HitscanTarget>, t: nat, requested: nat, now: nat
  )
    requires Run(config, events).config.maxSamplesPerEntity > 0
    ensures var answer := Rewind(Run(config, events + [Recorded(targets, t)]), requested, now);
      |answer| == |targets| && forall i :: 0 <= i < |answer| ==> answer[i].entityId == targets[i].entityId
  {
    var all := events + [Recorded(targets, t)];
    var before, after := Run(config, events), Run(config, all);
    assert all[..|all| - 1] == events;
    assert after == Record(before, targets, t);
    RunOwnTargets(config, all);
    hide RecordTargets, Run, Own, RewindAt;
    var at := ClampRewindTime(after.config, requested, now);
    forall id | id in after.order
      ensures HistoryOf(after.histories, id) != []
    {
      var i :| 0 <= i < |targets| && targets[i].entityId == id;
      RecordTargetsPresent(before.histories, before.config, targets, t, i);
    }
    RewindAllInOrder(after.histories, after.order, at);
    forall i | 0 <= i < |targets|
      ensures RewindAll(after.histories, after.order, at)[i].entityId == targets[i].entityId
    {
      var id := after.order[i];
      assert id in after.order;
      RewindOwn(after.histories, id, at);
    }
  }

  // ---------------------------------------------------------------------------------------------
  // Two records of one target

  /** A record of one target, newer than its history. */
  lemma RecordsOne(config: Config, events: seq<Event>, target: HitscanTarget, t: nat)
    requires Accepts(HistoryOf(Run(config, events).histories, target.entityId), t)
    ensures var before, after := Run(config, events), Run(config, events + [Recorded([target], t)]);
      after.config == before.config
      && HistoryOf(after.histories, target.entityId)
         == Pruned(HistoryOf(before.histories, target.entityId) + [Sample(t, target)], before.config, t)
  {
    hide Pruned, SuffixOf;
    var s := Run(config, events);
    assert (events + [Recorded([target], t)])[..|events|] == events;
    assert [target][..0] == [] && RecordTargets(s.histories, s.config, [], t) == s.histories;
    assert RecordTargets(s.histories, s.config, [target], t) == RecordTarget(s.histories, s.config, target, t);
  }

  /** Two records no more than the rewind limit apart are both kept. */
  lemma RecordsTwo(config: Config, x: HitscanTarget, y: HitscanTarget, start: nat, end: nat)
    requires x.entityId == y.entityId && start < end <= start + config.maxRewindUs && config.maxSamplesPerEntity >= 2
    ensures HistoryOf(Run(config, [Recorded([x], start)] + [Recorded([y], end)]).histories, x.entityId)
         == [Sample(start, x)] + [Sample(end, y)]
  {
    RecordsFirst(config, x, start);
    PrunesNeither(x, y, start, end, config);
    hide Run, Pruned, SuffixOf;
    RecordsOne(config, [Recorded([x], start)], y, end);
  }

  lemma RecordsFirst(config: Config, x: HitscanTarget, start: nat)
    requires config.maxSamplesPerEntity > 0
    ensures var s := Run(config, [Recorded([x], start)]);
      s.config == config && HistoryOf(s.histories, x.entityId) == [Sample(start, x)]
  {
    hide Pruned, SuffixOf;
    RecordsOne(config, [], x, start);
    assert [] + [Recorded([x], start)] == [Recorded([x], start)];
    PrunesNone(x, start, config);
    assert [] + [Sample(start, x)] == [Sample(start, x)];
  }

  lemma PrunesNone(x: HitscanTarget, start: nat, config: Config)
    requires config.maxSamplesPerEntity > 0
    ensures Pruned([Sample(start, x)], config, start) == [Sample(start, x)]
  {
  }

  lemma PrunesNeither(x: HitscanTarget, y: HitscanTarget, start: nat, end: nat, config: Config)
    requires start < end <= start + config.maxRewindUs && config.maxSamplesPerEntity >= 2
    ensures Pruned([Sample(start, x)] + [Sample(end, y)], config, end) == [Sample(start, x)] + [Sample(end, y)]
  {
  }

  /**
   Why the caps are positive there: a cap of zero keeps nothing of `x`, so once the cap is raised a second record of
   the same time is taken, which a service that never prunes turns down.
   */
  lemma ZeroCapForgets(config: Config, raised: Config, x: HitscanTarget, y: HitscanTarget, t: nat)
    requires config.maxSamplesPerEntity == 0 && raised.maxSamplesPerEntity > 0 && x.entityId == y.entityId
    ensures var events := [Recorded([x], t)] + [NewConfig(raised, t)] + [Recorded([y], t)];
      HistoryOf(Run(config, events).histories, x.entityId) == [Sample(t, y)]
      && HistoryOf(FullRun(config, events).histories, x.entityId) == [Sample(t, x)]
  {
    FirstForgotten(config, raised, x, t);
    FirstRemembered(config, raised, x, t);
    hide Run, FullRun;
    RecordedAgain(config, [Recorded([x], t)] + [NewConfig(raised, t)], x, y, t);
  }

  /** A second record of one time, after a run that has lost the first one. */
  lemma RecordedAgain(config: Config, events: seq<Event>, x: HitscanTarget, y: HitscanTarget, t: nat)
    requires Run(config, events).config.maxSamplesPerEntity > 0
    requires HistoryOf(Run(config, events).histories, y.entityId) == []
    requires HistoryOf(FullRun(config, events).histories, y.entityId) == [Sample(t, x)]
    ensures HistoryOf(Run(config, events + [Recorded([y], t)]).histories, y.entityId) == [Sample(t, y)]
    ensures HistoryOf(FullRun(config, events + [Recorded([y], t)]).histories, y.entityId) == [Sample(t, x)]
  {
    hide Run, FullRun, Pruned, SuffixOf;
    RecordsOne(config, events, y, t);
    PrunesNone(y, t, Run(config, events).config);
    assert [] + [Sample(t, y)] == [Sample(t, y)];
    FullRecordsOne(config, events, y, t);
  }

  lemma FirstForgotten(config: Config, raised: Config, x: HitscanTarget, t: nat)
    requires config.maxSamplesPerEntity == 0
    ensures var s := Run(config, [Recorded([x], t)] + [NewConfig(raised, t)]);
      s.config == raised && HistoryOf(s.histories, x.entityId) == []
  {
    hide Pruned, SuffixOf;
    var e0, e1 := Recorded([x], t), NewConfig(raised, t);
    assert [] + [e0] == [e0] && ([e0] + [e1])[..1] == [e0];
    RecordsOne(config, [], x, t);
    NothingLeft([] + [Sample(t, x)], config, t);
    NothingLeft([], raised, t);
    assert HistoryOf(Run(config, [e0]).histories, x.entityId) == [];
    assert Run(config, [e0] + [e1]) == Reconfigured(Run(config, [e0]), raised, t);
  }

  lemma NothingLeft(h: seq<RewindSample>, config: Config, t: nat)
    requires h == [] || config.maxSamplesPerEntity == 0
    ensures Pruned(h, config, t) == []
  {
  }

  lemma FirstRemembered(config: Config, raised: Config, x: HitscanTarget, t: nat)
    ensures HistoryOf(FullRun(config, [Recorded([x], t)] + [NewConfig(raised, t)]).histories, x.entityId)
         == [Sample(t, x)]
  {
    hide KeepAll;
    var e0, e1 := Recorded([x], t), NewConfig(raised, t);
    assert [] + [e0] == [e0] && ([e0] + [e1])[..1] == [e0];
    FullRecordsOne(config, [], x, t);
    assert [] + [Sample(t, x)] == [Sample(t, x)];
    assert FullRun(config, [e0] + [e1]).histories == FullRun(config, [e0]).histories;
  }

  /** A record of one target, in the run that never prunes. */
  lemma FullRecordsOne(config: Config, events: seq<Event>, target: HitscanTarget, t: nat)
    ensures var h := HistoryOf(FullRun(config, events).histories, target.entityId);
      HistoryOf(FullRun(config, events + [Recorded([target], t)]).histories, target.entityId)
      == if Accepts(h, t) then h + [Sample(t, target)] else h
  {
    hide KeepAll;
    var hs := FullRun(config, events).histories;
    assert (events + [Recorded([target], t)])[..|events|] == events;
    assert FirstIndex(IdOf, [target], target.entityId) == 0;
    KeepAllAddsFirst(hs, IdOf, [target], t, target.entityId);
  }

  // ---------------------------------------------------------------------------------------------
  // A fixed configuration whose cap never fires

  /** Recording `targets` at `t` never finds more samples left, after ageing, than the cap allows. */
  ghost predicate CapIdleFor(hs: TargetHistories, config: Config, targets: seq<HitscanTarget>, t: nat) {
    targets == []
    || (CapIdleFor(hs, config, targets[..|targets| - 1], t)
        && var target := targets[|targets| - 1];
        var h := HistoryOf(RecordTargets(hs, config, targets[..|targets| - 1], t), target.entityId);
        Accepts(h, t) ==> |AgedAt(h + [Sample(t, target)], config, t)| <= config.maxSamplesPerEntity)
  }

  /** The run keeps its configuration, the cap never fires and nothing is recorded after `now`. */
  ghost predicate SteadyUntil(config: Config, events: seq<Event>, now: nat) {
    events == []
    || (SteadyUntil(config, events[..|events| - 1], now)
        && match events[|events| - 1]
           case Recorded(targets, t) =>
             t <= now && CapIdleFor(Run(config, events[..|events| - 1]).histories, config, targets, t)
           case NewConfig(_, _) => false
           case Cleared => true)
  }

  /** Nothing was cut from `p`, or what is left reaches back the whole rewind window. */
  ghost predicate CoversWindow(p: seq<RewindSample>, f: seq<RewindSample>, maxRewindUs: nat, now: nat) {
    StandsFor(p, f)
    && (p == f || p[0].serverTimeUs + maxRewindUs <= Last(p).serverTimeUs)
    && (p == [] || Last(p).serverTimeUs <= now)
  }

  ghost predicate AllCoverWindow(ps: TargetHistories, fs: TargetHistories, maxRewindUs: nat, now: nat) {
    forall id :: CoversWindow(HistoryOf(ps, id), HistoryOf(fs, id), maxRewindUs, now)
  }

  lemma {:induction false} AgedReachesBack(h: seq<RewindSample>, earliest: nat)
    requires h != []
    ensures Aged(h, earliest) == h || Aged(h, earliest)[0].serverTimeUs <= earliest
  {
    if |h| > 1 && h[1].serverTimeUs <= earliest {
      AgedReachesBack(h[1..], earliest);
    }
  }

  lemma AgedAtReachesBack(h: seq<RewindSample>, config: Config, latest: nat)
    requires h != []
    ensures var r := AgedAt(h, config, latest);
      r != [] && Last(r) == Last(h) && (r == h || r[0].serverTimeUs + config.maxRewindUs <= latest)
  {
    hide Aged;
    if latest > config.maxRewindUs {
      AgedReachesBack(h, latest - config.maxRewindUs);
    }
  }

  lemma AppendCoversWindow(p: seq<RewindSample>, f: seq<RewindSample>, config: Config, s: RewindSample, now: nat)
    requires CoversWindow(p, f, config.maxRewindUs, now) && Accepts(p, s.serverTimeUs) && s.serverTimeUs <= now
    requires |AgedAt(p + [s], config, s.serverTimeUs)| <= config.maxSamplesPerEntity
    ensures CoversWindow(Pruned(p + [s], config, s.serverTimeUs), f + [s], config.maxRewindUs, now)
  {
    hide AgedAt;
    var h := p + [s];
    var r := Pruned(h, config, s.serverTimeUs);
    assert r == AgedAt(h, config, s.serverTimeUs);
    assert StandsFor(r, f + [s]) by {
      AppendStandsFor(p, f, s);
      SuffixTrans(r, h, f + [s]);
    }
    hide StandsFor;
    AgedAtReachesBack(h, config, s.serverTimeUs);
    if p != f && r == h {
      assert p != [] by {
        CoversSameNewest(p, f, config.maxRewindUs, now);
      }
      assert r[0] == p[0] && Last(p).serverTimeUs < s.serverTimeUs;
    }
  }

  lemma RecordTargetCovers(ps: TargetHistories, fs: TargetHistories, config: Config, target: HitscanTarget, t: nat,
      now: nat)
    requires AllCoverWindow(ps, fs, config.maxRewindUs, now) && t <= now
    requires var h := HistoryOf(ps, target.entityId);
      Accepts(h, t) ==> |AgedAt(h + [Sample(t, target)], config, t)| <= config.maxSamplesPerEntity
    ensures AllCoverWindow(RecordTarget(ps, config, target, t), Keep(fs, target.entityId, t, target),
        config.maxRewindUs, now)
  {
    hide Pruned, StandsFor, AgedAt, CoversWindow, SuffixOf;
    var id := target.entityId;
    var p, f := HistoryOf(ps, id), HistoryOf(fs, id);
    assert CoversWindow(p, f, config.maxRewindUs, now);
    assert Accepts(p, t) == Accepts(f, t) by {
      CoversSameNewest(p, f, config.maxRewindUs, now);
    }
    if Accepts(p, t) {
      AppendCoversWindow(p, f, config, Sample(t, target), now);
      forall other
        ensures CoversWindow(HistoryOf(RecordTarget(ps, config, target, t), other),
                             HistoryOf(Keep(fs, target.entityId, t, target), other), config.maxRewindUs, now)
      {
        assert CoversWindow(HistoryOf(ps, other), HistoryOf(fs, other), config.maxRewindUs, now);
      }
    }
  }

  lemma CoversSameNewest(p: seq<RewindSample>, f: seq<RewindSample>, maxRewindUs: nat, now: nat)
    requires CoversWindow(p, f, maxRewindUs, now)
    ensures p == [] <==> f == []
    ensures p != [] ==> Last(p) == Last(f)
  {
    SameNewest(p, f);
  }

  lemma {:induction false} RecordTargetsCover(
    ps: TargetHistories, fs: TargetHistories, config: Config, targets: seq<HitscanTarget>, t: nat, now: nat
  )
    requires AllCoverWindow(ps, fs, config.maxRewindUs, now) && t <= now && CapIdleFor(ps, config, targets, t)
    ensures AllCoverWindow(RecordTargets(ps, config, targets, t), KeepAll(fs, IdOf, targets, t), config.maxRewindUs,
        now)
  {
    hide AllCoverWindow, RecordTarget, Keep, AgedAt;
    if targets != [] {
      var n := |targets| - 1;
      RecordTargetsCover(ps, fs, config, targets[..n], t, now);
      RecordTargetCovers(RecordTargets(ps, config, targets[..n], t), KeepAll(fs, IdOf, targets[..n], t),
                         config, targets[n], t, now);
    }
  }

  lemma {:induction false} RunCovers(config: Config, events: seq<Event>, now: nat)
    requires SteadyUntil(config, events, now)
    ensures var s, f := Run(config, events), FullRun(config, events);
      AllCoverWindow(s.histories, f.histories, config.maxRewindUs, now)
      && s.order == f.order && s.config == f.config == config
  {
    hide AllCoverWindow, RecordTargets, KeepAll, CapIdleFor;
    if events == [] {
      NothingCovers(config.maxRewindUs, now);
    } else {
      var init, e := events[..|events| - 1], events[|events| - 1];
      RunCovers(config, init, now);
      match e
      case Recorded(targets, t) =>
        RecordTargetsCover(Run(config, init).histories, FullRun(config, init).histories, config, targets, t, now);
      case NewConfig(_, _) =>
      case Cleared => NothingCovers(config.maxRewindUs, now);
    }
  }

  lemma NothingCovers(maxRewindUs: nat, now: nat)
    ensures AllCoverWindow(map[], map[], maxRewindUs, now)
  {
  }

  lemma {:induction false} RewindAllAgrees(
    ps: TargetHistories, fs: TargetHistories, order: seq<int>, config: Config, requested: nat, now: nat
  )
    requires AllCoverWindow(ps, fs, config.maxRewindUs, now)
    ensures RewindAll(ps, order, ClampRewindTime(config, requested, now))
         == RewindAll(fs, order, ClampRewindTime(config, requested, now))
  {
    hide StandsFor, RewindAt;
    if order != [] {
      var id := order[|order| - 1];
      RewindAllAgrees(ps, fs, order[..|order| - 1], config, requested, now);
      assert CoversWindow(HistoryOf(ps, id), HistoryOf(fs, id), config.maxRewindUs, now);
      WindowAgrees(HistoryOf(ps, id), HistoryOf(fs, id), config, requested, now);
    }
  }

  lemma WindowAgrees(p: seq<RewindSample>, f: seq<RewindSample>, config: Config, requested: nat, now: nat)
    requires CoversWindow(p, f, config.maxRewindUs, now)
    ensures p == [] <==> f == []
    ensures p != [] ==> RewindAt(p, ClampRewindTime(config, requested, now)) == RewindAt(f, ClampRewindTime(config,
        requested, now))
  {
    hide RewindAt;
    if p != [] && p != f {
      PruningInvisible(p, f, ClampRewindTime(config, requested, now));
    }
  }

  /**
   With a fixed configuration whose cap never fires, and a current time not before any record, the service
   answers every request exactly like one that never prunes.
   */
  lemma SteadyRunUnpruned(config: Config, events: seq<Event>, requested: nat, now: nat)
    requires SteadyUntil(config, events, now)
    ensures Rewind(Run(config, events), requested, now) == Rewind(FullRun(config, events), requested, now)
  {
    hide RewindAll, ClampRewindTime, AllCoverWindow;
    RunCovers(config, events, now);
    var s, f := Run(config, events), FullRun(config, events);
    RewindAllAgrees(s.histories, f.histories, s.order, config, requested, now);
  }
}
