/** When the sample cap of the lag compensation never fires: how wide it must be for the pace of the records. */
module RecordPace {
  import opened LagCompensation
  import opened RewindLaws
  import opened Timeline
  import opened Words

  // ---------------------------------------------------------------------------------------------
  // What a run's records promise

  /** The times at which a run records. */
  function RecordTimes(events: seq<Event>): set<nat> {
    if events == [] then {}
    else
      RecordTimes(events[..|events| - 1])
      + match events[|events| - 1]
        case Recorded(_, t) => {t}
        case _ => {}
  }

  /** The time that `n` records take, one a `spacing`. */
  function Lasting(n: int, spacing: nat): int {
    n * spacing
  }

  function Within(times: set<nat>, u: nat, v: nat): set<nat> {
    set w | w in times && u < w <= v
  }

  /**
   Over any stretch the times come at one a `spacing`, give or take `extra`: with none extra they are `spacing` apart,
   with one they may be late and catch up, as ticks do that wait for the next frame.
   */
  ghost predicate Bursty(times: set<nat>, spacing: nat, extra: nat) {
    forall u, v :: u in times && v in times && u < v ==> Lasting(|Within(times, u, v)| - extra, spacing) <= v - u
  }

  /** Records at that pace, none of them after `now`, and a configuration that stays. */
  ghost predicate Paced(events: seq<Event>, spacing: nat, extra: nat, now: nat) {
    Bursty(RecordTimes(events), spacing, extra)
    && (forall u :: u in RecordTimes(events) ==> u <= now)
    && forall e :: e in events ==> !e.NewConfig?
  }

  /** The cap holds every record of the rewind window at that pace, and the one before it. */
  predicate Wide(config: Config, spacing: nat, extra: nat) {
    config.maxSamplesPerEntity > extra
    && Lasting(config.maxSamplesPerEntity - 1 - extra, spacing) >= config.maxRewindUs
  }

  ghost predicate Separated(times: set<nat>, spacing: nat) {
    forall u, v :: u in times && v in times && u < v ==> u + spacing <= v
  }

  /** Times that are `spacing` apart come at one a `spacing`. */
  lemma SeparatedBursty(times: set<nat>, spacing: nat)
    requires Separated(times, spacing)
    ensures Bursty(times, spacing, 0)
  {
    forall u, v | u in times && v in times && u < v
      ensures |Within(times, u, v)| * spacing <= v - u
    {
      SeparatedWithin(times, spacing, u, v);
    }
  }

  lemma {:induction false} SeparatedWithin(times: set<nat>, spacing: nat, u: nat, v: nat)
    requires Separated(times, spacing) && u in times && v in times && u < v
    ensures |Within(times, u, v)| * spacing <= v - u
    decreases v - u
  {
    if w :| w in times && u < w < v {
      SeparatedWithin(times, spacing, u, w);
      SeparatedWithin(times, spacing, w, v);
      SplitWithin(times, u, w, v);
      hide Within, Separated;
      Distribute(|Within(times, u, w)|, |Within(times, w, v)|, spacing);
    } else {
      assert Within(times, u, v) == {v};
    }
  }

  lemma SplitWithin(times: set<nat>, u: nat, w: nat, v: nat)
    requires u < w < v
    ensures |Within(times, u, v)| == |Within(times, u, w)| + |Within(times, w, v)|
  {
    assert Within(times, u, v) == Within(times, u, w) + Within(times, w, v);
    assert Within(times, u, w) !! Within(times, w, v);
  }

  lemma Distribute(a: nat, b: nat, c: nat)
    ensures (a + b) * c == a * c + b * c
  {
  }

  // ---------------------------------------------------------------------------------------------
  // A wide cap never fires

  /** An increasing history of samples at known times. */
  ghost predicate TimedBy(h: seq<RewindSample>, times: set<nat>) {
    Increasing(h) && forall i :: 0 <= i < |h| ==> h[i].serverTimeUs in times
  }

  lemma {:induction false} LongerSpan(a: int, b: int, spacing: nat)
    requires a <= b
    ensures a * spacing <= b * spacing
    decreases b - a
  {
    if a < b {
      LongerSpan(a, b - 1, spacing);
      assert b * spacing == (b - 1) * spacing + spacing;
    }
  }

  lemma {:induction false} CountedWithin(h: seq<RewindSample>, times: set<nat>, i: nat, j: nat)
    requires TimedBy(h, times) && i <= j < |h|
    ensures j - i <= |Within(times, h[i].serverTimeUs, h[j].serverTimeUs)|
    decreases j - i
  {
    if i < j {
      CountedWithin(h, times, i, j - 1);
      var less, more := Within(times, h[i].serverTimeUs, h[j - 1].serverTimeUs),
                        Within(times, h[i].serverTimeUs, h[j].serverTimeUs);
      assert h[j].serverTimeUs !in less && less + {h[j].serverTimeUs} <= more;
      SubsetSmaller(less + {h[j].serverTimeUs}, more);
    }
  }

  lemma {:induction false} SubsetSmaller(a: set<nat>, b: set<nat>)
    requires a <= b
    ensures |a| <= |b|
  {
    if x :| x in a {
      SubsetSmaller(a - {x}, b - {x});
    }
  }

  lemma LastsLonger(a: int, b: int, spacing: nat)
    requires a <= b
    ensures Lasting(a, spacing) <= Lasting(b, spacing)
    ensures a <= 0 ==> Lasting(a, spacing) <= 0
  {
    LongerSpan(a, b, spacing);
    if a <= 0 {
      LongerSpan(a, 0, spacing);
    }
  }

  /** Samples take the time their number takes. */
  lemma Spans(h: seq<RewindSample>, times: set<nat>, spacing: nat, extra: nat, i: nat, j: nat)
    requires TimedBy(h, times) && Bursty(times, spacing, extra) && i <= j < |h|
    ensures Lasting(j - i - extra, spacing) <= h[j].serverTimeUs - h[i].serverTimeUs
  {
    hide Lasting, Within;
    var u, v := h[i].serverTimeUs, h[j].serverTimeUs;
    CountedWithin(h, times, i, j);
    if i < j {
      LastsLonger(j - i - extra, |Within(times, u, v)| - extra, spacing);
    } else {
      LastsLonger(j - i - extra, 0, spacing);
    }
  }

  lemma SuffixTimed(r: seq<RewindSample>, h: seq<RewindSample>, times: set<nat>)
    requires SuffixOf(r, h) && TimedBy(h, times)
    ensures TimedBy(r, times)
  {
    assert forall i :: 0 <= i < |r| ==> r[i] == h[|h| - |r| + i];
  }

  /** What ageing leaves is an end of the history, and starts at most one sample before the window. */
  lemma AgedEnd(h: seq<RewindSample>, config: Config)
    requires h != []
    ensures var now := Last(h).serverTimeUs;
      var r := AgedAt(h, config, now);
      SuffixOf(r, h) && r != [] && r[|r| - 1].serverTimeUs == now
      && (|r| > 1 && now > config.maxRewindUs ==> r[1].serverTimeUs > now - config.maxRewindUs)
  {
    hide Aged;
    var now := Last(h).serverTimeUs;
    assert Last(AgedAt(h, config, now)) == Last(h);
    if now > config.maxRewindUs {
      AgedStartsLate(h, now - config.maxRewindUs);
    }
  }

  /** A history recorded at the pace and aged at its newest record fits a wide cap. */
  lemma AgedFits(h: seq<RewindSample>, config: Config, spacing: nat, extra: nat, times: set<nat>)
    requires h != [] && TimedBy(h, times) && Bursty(times, spacing, extra)
    requires spacing > 0 && Wide(config, spacing, extra)
    ensures |AgedAt(h, config, Last(h).serverTimeUs)| <= config.maxSamplesPerEntity
  {
    AgedEnd(h, config);
    hide TimedBy, Bursty, AgedAt, Lasting, SuffixOf;
    var r := AgedAt(h, config, Last(h).serverTimeUs);
    SuffixTimed(r, h, times);
    EndFits(r, config, spacing, extra, times);
  }

  lemma EndFits(r: seq<RewindSample>, config: Config, spacing: nat, extra: nat, times: set<nat>)
    requires r != [] && TimedBy(r, times) && Bursty(times, spacing, extra)
    requires spacing > 0 && Wide(config, spacing, extra)
    requires var now := r[|r| - 1].serverTimeUs;
      |r| > 1 && now > config.maxRewindUs ==> r[1].serverTimeUs > now - config.maxRewindUs
    ensures |r| <= config.maxSamplesPerEntity
  {
    hide TimedBy, Bursty, Lasting;
    var last := |r| - 1;
    if r[last].serverTimeUs <= config.maxRewindUs {
      Spans(r, times, spacing, extra, 0, last);
      NoLonger(last - 0 - extra, config.maxSamplesPerEntity - 1 - extra, spacing, config.maxRewindUs);
    } else if last > 0 {
      Spans(r, times, spacing, extra, 1, last);
      Shorter(last - 1 - extra, config.maxSamplesPerEntity - 1 - extra, spacing, config.maxRewindUs);
    }
  }

  lemma NoLonger(a: int, b: int, spacing: nat, span: int)
    requires Lasting(a, spacing) <= span <= Lasting(b, spacing) && spacing > 0
    ensures a <= b
  {
    assert (b + 1) * spacing == b * spacing + spacing;
    if a > b {
      LongerSpan(b + 1, a, spacing);
    }
  }

  lemma Shorter(a: int, b: int, spacing: nat, span: int)
    requires Lasting(a, spacing) < span <= Lasting(b, spacing)
    ensures a < b
  {
    if a >= b {
      LongerSpan(b, a, spacing);
    }
  }

  ghost predicate AllTimedBy(hs: TargetHistories, times: set<nat>) {
    forall id :: TimedBy(HistoryOf(hs, id), times)
  }

  lemma RecordKeepsPace(
    hs: TargetHistories, config: Config, target: HitscanTarget, t: nat, spacing: nat, extra: nat, times: set<nat>
  )
    requires AllTimedBy(hs, times) && t in times && Bursty(times, spacing, extra)
    requires spacing > 0 && Wide(config, spacing, extra)
    ensures AllTimedBy(RecordTarget(hs, config, target, t), times)
    ensures var h := HistoryOf(hs, target.entityId);
      Accepts(h, t) ==> |AgedAt(h + [Sample(t, target)], config, t)| <= config.maxSamplesPerEntity
  {
    hide Pruned, AgedAt, SuffixOf, Wide, TimedBy, Bursty;
    var id := target.entityId;
    var h := HistoryOf(hs, id);
    assert TimedBy(h, times);
    if Accepts(h, t) {
      var grown := h + [Sample(t, target)];
      GrownTimed(h, target, t, times);
      AgedFits(grown, config, spacing, extra, times);
      PrunedTimed(grown, config, t, times);
      forall other
        ensures TimedBy(HistoryOf(RecordTarget(hs, config, target, t), other), times)
      {
        assert TimedBy(HistoryOf(hs, other), times);
      }
    }
  }

  lemma GrownTimed(h: seq<RewindSample>, target: HitscanTarget, t: nat, times: set<nat>)
    requires TimedBy(h, times) && Accepts(h, t) && t in times
    ensures TimedBy(h + [Sample(t, target)], times)
  {
  }

  lemma PrunedTimed(h: seq<RewindSample>, config: Config, t: nat, times: set<nat>)
    requires TimedBy(h, times)
    ensures TimedBy(Pruned(h, config, t), times)
  {
    hide TimedBy, Pruned;
    assert SuffixOf(Pruned(h, config, t), h);
    SuffixTimed(Pruned(h, config, t), h, times);
  }

  lemma {:induction false} RecordsKeepPace(
    hs: TargetHistories, config: Config, targets: seq<HitscanTarget>, t: nat, spacing: nat, extra: nat, times: set<nat>
  )
    requires AllTimedBy(hs, times) && t in times && Bursty(times, spacing, extra)
    requires spacing > 0 && Wide(config, spacing, extra)
    ensures AllTimedBy(RecordTargets(hs, config, targets, t), times) && CapIdleFor(hs, config, targets, t)
  {
    hide AllTimedBy, RecordTarget, AgedAt, Wide, Bursty;
    if targets != [] {
      var n := |targets| - 1;
      RecordsKeepPace(hs, config, targets[..n], t, spacing, extra, times);
      RecordKeepsPace(RecordTargets(hs, config, targets[..n], t), config, targets[n], t, spacing, extra, times);
    }
  }

  /** A paced run under a wide cap, seen against the record times of a longer one. */
  lemma {:induction false} PacedSteady(
    config: Config, events: seq<Event>, spacing: nat, extra: nat, now: nat, times: set<nat>
  )
    requires spacing > 0 && Wide(config, spacing, extra) && Bursty(times, spacing, extra)
    requires RecordTimes(events) <= times
    requires (forall u :: u in times ==> u <= now) && forall e :: e in events ==> !e.NewConfig?
    ensures SteadyUntil(config, events, now) && Run(config, events).config == config
    ensures AllTimedBy(Run(config, events).histories, times)
  {
    hide AllTimedBy, RecordTargets, CapIdleFor, Wide, Bursty;
    if events == [] {
      NothingTimed(times);
    } else {
      var init, e := events[..|events| - 1], events[|events| - 1];
      PacedSteady(config, init, spacing, extra, now, times);
      match e
      case Recorded(targets, t) =>
        RecordsKeepPace(Run(config, init).histories, config, targets, t, spacing, extra, times);
      case NewConfig(_, _) =>
      case Cleared => NothingTimed(times);
    }
  }

  lemma NothingTimed(times: set<nat>)
    ensures AllTimedBy(map[], times)
  {
  }

  /** A wide cap never fires in a paced run, so the run answers like one that never prunes. */
  lemma PacedRunUnpruned(config: Config, events: seq<Event>, spacing: nat, extra: nat, requested: nat, now: nat)
    requires spacing > 0 && Wide(config, spacing, extra) && Paced(events, spacing, extra, now)
    ensures SteadyUntil(config, events, now)
    ensures Rewind(Run(config, events), requested, now) == Rewind(FullRun(config, events), requested, now)
  {
    PacedSteady(config, events, spacing, extra, now, RecordTimes(events));
    hide SteadyUntil, Rewind, Run, FullRun;
    SteadyRunUnpruned(config, events, requested, now);
  }

  // ---------------------------------------------------------------------------------------------
  // A narrower cap fires

  /** One target, recorded `n` times at the pace. */
  function Beats(x: HitscanTarget, spacing: nat, n: nat): seq<Event> {
    if n == 0 then [] else Beats(x, spacing, n - 1) + [Recorded([x], n * spacing)]
  }

  function Beaten(x: HitscanTarget, spacing: nat, n: nat): (h: seq<RewindSample>)
    ensures |h| == n && forall i :: 0 <= i < n ==> h[i] == Sample((i + 1) * spacing, x)
  {
    seq(n, i requires 0 <= i < n => Sample((i + 1) * spacing, x))
  }

  lemma BeatsStep(x: HitscanTarget, spacing: nat, n: nat)
    requires n > 0
    ensures var events := Beats(x, spacing, n);
      events != [] && events[..|events| - 1] == Beats(x, spacing, n - 1)
      && events[|events| - 1] == Recorded([x], n * spacing)
  {
  }

  lemma {:induction false} BeatsPaced(x: HitscanTarget, spacing: nat, n: nat)
    ensures Separated(RecordTimes(Beats(x, spacing, n)), spacing)
    ensures forall e :: e in Beats(x, spacing, n) ==> !e.NewConfig?
    ensures forall u :: u in RecordTimes(Beats(x, spacing, n)) ==> u <= n * spacing
  {
    if n > 0 {
      BeatsPaced(x, spacing, n - 1);
      BeatsStep(x, spacing, n);
      assert n * spacing == (n - 1) * spacing + spacing;
    }
  }

  /** Ageing leaves as many beats as one more than the cap alone. */
  lemma NothingAges(config: Config, x: HitscanTarget, spacing: nat, n: nat)
    requires !Wide(config, spacing, 0) && 0 < n <= config.maxSamplesPerEntity + 1
    ensures AgedAt(Beaten(x, spacing, n), config, n * spacing) == Beaten(x, spacing, n)
  {
    hide Aged;
    if n > 1 {
      LongerSpan(n - 2, config.maxSamplesPerEntity - 1, spacing);
      assert n * spacing == (n - 2) * spacing + 2 * spacing;
    }
    StaysYoung(Beaten(x, spacing, n), config, n * spacing);
  }

  lemma StaysYoung(h: seq<RewindSample>, config: Config, latest: nat)
    requires |h| > 1 ==> h[1].serverTimeUs + config.maxRewindUs > latest
    ensures AgedAt(h, config, latest) == h
  {
  }

  lemma {:induction false} BeatsKept(config: Config, x: HitscanTarget, spacing: nat, n: nat)
    requires !Wide(config, spacing, 0) && spacing > 0 && n <= config.maxSamplesPerEntity
    ensures Run(config, Beats(x, spacing, n)).config == config
    ensures HistoryOf(Run(config, Beats(x, spacing, n)).histories, x.entityId) == Beaten(x, spacing, n)
  {
    hide Wide, AgedAt;
    if n > 0 {
      BeatsKept(config, x, spacing, n - 1);
      NothingAges(config, x, spacing, n);
      BeatAccepted(x, spacing, n);
      RecordsOne(config, Beats(x, spacing, n - 1), x, n * spacing);
    }
  }

  lemma BeatAccepted(x: HitscanTarget, spacing: nat, n: nat)
    requires spacing > 0 && n > 0
    ensures Accepts(Beaten(x, spacing, n - 1), n * spacing)
    ensures Beaten(x, spacing, n - 1) + [Sample(n * spacing, x)] == Beaten(x, spacing, n)
  {
    assert n * spacing == (n - 1) * spacing + spacing;
  }

  /** One beat more than a narrow cap holds, and the cap fires. */
  lemma BeatsFire(config: Config, x: HitscanTarget, spacing: nat)
    requires !Wide(config, spacing, 0) && spacing > 0
    ensures var n := config.maxSamplesPerEntity + 1;
      Paced(Beats(x, spacing, n), spacing, 0, n * spacing)
      && !SteadyUntil(config, Beats(x, spacing, n), n * spacing)
  {
    hide Wide, AgedAt, Run, CapIdleFor, Beats, SuffixOf, Bursty, Separated;
    var n := config.maxSamplesPerEntity + 1;
    var hs, t := Run(config, Beats(x, spacing, n - 1)).histories, n * spacing;
    BeatsPaced(x, spacing, n);
    SeparatedBursty(RecordTimes(Beats(x, spacing, n)), spacing);
    BeatsStep(x, spacing, n);
    BeatsKept(config, x, spacing, n - 1);
    NothingAges(config, x, spacing, n);
    BeatAccepted(x, spacing, n);
    OverCap(hs, config, x, t);
    assert !SteadyUntil(config, Beats(x, spacing, n), t);
  }

  /** Recording one target fires the cap when its aged history is longer than that. */
  lemma OverCap(hs: TargetHistories, config: Config, x: HitscanTarget, t: nat)
    requires Accepts(HistoryOf(hs, x.entityId), t)
    requires |AgedAt(HistoryOf(hs, x.entityId) + [Sample(t, x)], config, t)| > config.maxSamplesPerEntity
    ensures !CapIdleFor(hs, config, [x], t)
  {
    hide AgedAt, SuffixOf;
    assert [x][..0] == [] && RecordTargets(hs, config, [], t) == hs;
  }

  /**
   The cap never fires, in any run that records `spacing` apart, exactly when it is wide for that pace: that is known
   before the run.
   */
  lemma WideExactly(config: Config, spacing: nat, x: HitscanTarget)
    requires spacing > 0
    ensures Wide(config, spacing, 0)
       <==> forall events, now :: Paced(events, spacing, 0, now) ==> SteadyUntil(config, events, now)
  {
    hide Wide, Paced, SteadyUntil;
    if Wide(config, spacing, 0) {
      forall events, now | Paced(events, spacing, 0, now)
        ensures SteadyUntil(config, events, now)
      {
        PacedRunUnpruned(config, events, spacing, 0, now, now);
      }
    } else {
      BeatsFire(config, x, spacing);
    }
  }

  // ---------------------------------------------------------------------------------------------
  // The limits the server chooses

  const DEFAULT_TICK_RATE_HZ := 60
  const DEFAULT_TICK_INTERVAL_US := 16_667

  function EffectiveRate(tickRateHz: U16): (r: nat)
    ensures r > 0
  {
    if tickRateHz > 0 then tickRateHz else DEFAULT_TICK_RATE_HZ
  }

  /** The limits of the lag compensation: the rewind limit in milliseconds, and its ticks rounded up plus two. */
  function ServerLimits(maxRewindMs: U32, tickRateHz: U16): (config: Config)
    ensures config.maxSamplesPerEntity >= 2 && config.maxRewindUs == 1000 * maxRewindMs
    ensures 1000 * (config.maxSamplesPerEntity - 3) < maxRewindMs * EffectiveRate(tickRateHz)
         <= 1000 * (config.maxSamplesPerEntity - 2)
  {
    var samples := (maxRewindMs * EffectiveRate(tickRateHz) + 999) / 1000 + 2;
    Config(maxRewindMs * 1000, if samples < 2 then 2 else samples)
  }

  /** A tick in whole microseconds, to the nearest. */
  function TickIntervalUs(tickRateHz: U16): (us: nat)
    ensures us > 0
    ensures tickRateHz > 0 ==> 2_000_000 - tickRateHz <= 2 * (tickRateHz * us) <= 2_000_000 + tickRateHz
  {
    if tickRateHz == 0 then DEFAULT_TICK_INTERVAL_US else (2_000_000 + tickRateHz) / (2 * tickRateHz)
  }

  /** The half microsecond a tick may be short of adds up to less than a tick over the rewind window. */
  predicate RoundingFits(maxRewindMs: U32, tickRateHz: U16) {
    maxRewindMs * EffectiveRate(tickRateHz) <= 2000 * TickIntervalUs(tickRateHz)
  }

  /**
   The limits the server chooses are wide for records a tick apart, and, where the tick is not rounded down, also for
   ticks that are late and catch up.
   */
  lemma ServerLimitsWide(maxRewindMs: U32, tickRateHz: U16)
    ensures RoundingFits(maxRewindMs, tickRateHz) ==>
              Wide(ServerLimits(maxRewindMs, tickRateHz), TickIntervalUs(tickRateHz), 0)
    ensures EffectiveRate(tickRateHz) * TickIntervalUs(tickRateHz) >= 1_000_000 ==>
              Wide(ServerLimits(maxRewindMs, tickRateHz), TickIntervalUs(tickRateHz), 1)
  {
    var s := TickIntervalUs(tickRateHz);
    var rate := EffectiveRate(tickRateHz);
    var ticks := (maxRewindMs * rate + 999) / 1000;
    assert 1000 * ticks >= maxRewindMs * rate;
    assert ServerLimits(maxRewindMs, tickRateHz).maxSamplesPerEntity == ticks + 2;
    if RoundingFits(maxRewindMs, tickRateHz) {
      TicksCover(maxRewindMs, rate, s, ticks);
    }
    if rate * s >= 1_000_000 {
      WholeTicksCover(maxRewindMs, rate, s, ticks);
    }
  }

  lemma TicksCover(ms: nat, rate: nat, s: nat, ticks: nat)
    requires 1000 * ticks >= ms * rate && 2 * (rate * s) >= 2_000_000 - rate && ms * rate <= 2000 * s
    ensures (ticks + 1) * s >= 1000 * ms
  {
    LongerSpan(ms * rate, 1000 * ticks, s);
    assert 1000 * ticks * s == 1000 * (ticks * s);
    assert ms * rate * s == ms * (rate * s);
    LongerSpan(2_000_000 - rate, 2 * (rate * s), ms);
  }

  lemma WholeTicksCover(ms: nat, rate: nat, s: nat, ticks: nat)
    requires 1000 * ticks >= ms * rate && rate * s >= 1_000_000
    ensures ticks * s >= 1000 * ms
  {
    LongerSpan(ms * rate, 1000 * ticks, s);
    assert 1000 * ticks * s == 1000 * (ticks * s);
    assert ms * rate * s == ms * (rate * s);
    LongerSpan(1_000_000, rate * s, ms);
  }
}
