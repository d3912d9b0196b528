/** The clock of a hosting process: it advances in network steps, and an accumulator turns these into server ticks. */
module HostClock {
  import opened RecordPace
  import opened RewindLaws
  import opened Words

  const NETWORK_STEP_US := 16_667

  /** The clock after `steps` network steps. */
  function ClockAt(steps: nat): nat {
    steps * NETWORK_STEP_US
  }

  /** The ticks of the server up to then. */
  function TicksBy(steps: nat, tickUs: nat): nat
    requires tickUs > 0
  {
    ClockAt(steps) / tickUs
  }

  // ---------------------------------------------------------------------------------------------
  // The code

  class Host {
    var clockUs: nat
    var serverAccumulatorUs: nat
    ghost var steps: nat

    ghost predicate Valid(tickUs: nat)
      reads this
    {
      tickUs > 0 && clockUs == ClockAt(steps) && serverAccumulatorUs == clockUs % tickUs
    }

    constructor (tickUs: nat)
      requires tickUs > 0
      ensures Valid(tickUs) && steps == 0
    {
      clockUs, serverAccumulatorUs, steps := 0, 0, 0;
    }

    /** One network step, and the ticks it makes, all of them at the new clock. */
    method Advance(tickUs: nat) returns (ticks: nat)
      requires Valid(tickUs)
      modifies this
      ensures Valid(tickUs) && steps == old(steps) + 1
      ensures ticks == TicksBy(steps, tickUs) - TicksBy(old(steps), tickUs)
    {
      steps := steps + 1;
      clockUs := clockUs + NETWORK_STEP_US;
      serverAccumulatorUs := serverAccumulatorUs + NETWORK_STEP_US;
      ticks := 0;
      ghost var before := TicksBy(old(steps), tickUs);
      while serverAccumulatorUs >= tickUs
        invariant clockUs == ClockAt(steps) && steps == old(steps) + 1
        invariant clockUs == (before + ticks) * tickUs + serverAccumulatorUs
      {
        assert (before + ticks + 1) * tickUs == (before + ticks) * tickUs + tickUs;
        ticks := ticks + 1;
        serverAccumulatorUs := serverAccumulatorUs - tickUs;
      }
      DivMod(clockUs, before + ticks, serverAccumulatorUs, tickUs);
    }
  }

  lemma DivMod(n: nat, q: nat, r: nat, d: nat)
    requires n == q * d + r && r < d
    ensures n / d == q && n % d == r
  {
    var p := n / d;
    assert n == p * d + n % d;
    assert (q + 1) * d == q * d + d && (p + 1) * d == p * d + d;
    if p > q {
      LongerSpan(q + 1, p, d);
    } else if p < q {
      LongerSpan(p + 1, q, d);
    }
  }

  // ---------------------------------------------------------------------------------------------
  // The pace of the ticks

  /** The times of the ticks of the first `steps` network steps. */
  function TickTimes(steps: nat, tickUs: nat): set<nat>
    requires tickUs > 0
  {
    if steps == 0 then {}
    else
      TickTimes(steps - 1, tickUs)
      + if TicksBy(steps, tickUs) > TicksBy(steps - 1, tickUs) then {ClockAt(steps)} else {}
  }

  lemma {:induction false} TickTimesAreSteps(steps: nat, tickUs: nat)
    requires tickUs > 0
    ensures forall u :: u in TickTimes(steps, tickUs) ==> exists k: nat :: k <= steps && u == ClockAt(k)
    ensures forall u :: u in TickTimes(steps, tickUs) ==> u <= ClockAt(steps)
  {
    if steps > 0 {
      TickTimesAreSteps(steps - 1, tickUs);
    }
  }

  /** Between two steps there are no more tick times than ticks. */
  lemma {:induction false} TickTimesCounted(from: nat, to: nat, steps: nat, tickUs: nat)
    requires tickUs > 0 && from <= to <= steps
    ensures |Within(TickTimes(steps, tickUs), ClockAt(from), ClockAt(to))|
         <= TicksBy(to, tickUs) - TicksBy(from, tickUs)
    decreases steps
  {
    if from == to {
      assert Within(TickTimes(steps, tickUs), ClockAt(from), ClockAt(to)) == {};
    } else {
      TickTimesAreSteps(steps - 1, tickUs);
      if to < steps {
        TickTimesCounted(from, to, steps - 1, tickUs);
        assert Within(TickTimes(steps, tickUs), ClockAt(from), ClockAt(to))
            == Within(TickTimes(steps - 1, tickUs), ClockAt(from), ClockAt(to));
      } else {
        TickTimesCounted(from, to - 1, steps - 1, tickUs);
        LastStepCounted(from, to, tickUs);
      }
    }
  }

  lemma LastStepCounted(from: nat, to: nat, tickUs: nat)
    requires tickUs > 0 && from < to
    requires |Within(TickTimes(to - 1, tickUs), ClockAt(from), ClockAt(to - 1))|
          <= TicksBy(to - 1, tickUs) - TicksBy(from, tickUs)
    ensures |Within(TickTimes(to, tickUs), ClockAt(from), ClockAt(to))| <= TicksBy(to, tickUs) - TicksBy(from, tickUs)
  {
    TickTimesAreSteps(to - 1, tickUs);
    TicksGrow(to, tickUs);
    assert ClockAt(from) <= ClockAt(to - 1) < ClockAt(to);
    hide TicksBy, ClockAt, Within;
    NewTimeCounted(TickTimes(to - 1, tickUs), ClockAt(from), ClockAt(to - 1), ClockAt(to));
  }

  lemma NewTimeCounted(times: set<nat>, from: nat, last: nat, next: nat)
    requires from <= last < next && forall u :: u in times ==> u <= last
    ensures |Within(times + {}, from, next)| == |Within(times, from, last)|
    ensures |Within(times + {next}, from, next)| == |Within(times, from, last)| + 1
  {
    assert Within(times + {}, from, next) == Within(times, from, last);
    assert Within(times + {next}, from, next) == Within(times, from, last) + {next};
  }

  lemma TicksGrow(steps: nat, tickUs: nat)
    requires tickUs > 0 && steps > 0
    ensures TicksBy(steps - 1, tickUs) <= TicksBy(steps, tickUs)
  {
    var m, n := ClockAt(steps - 1), ClockAt(steps);
    assert n == (n / tickUs) * tickUs + n % tickUs && m == (m / tickUs) * tickUs + m % tickUs;
    assert (n / tickUs + 1) * tickUs == (n / tickUs) * tickUs + tickUs;
    if m / tickUs > n / tickUs {
      LongerSpan(n / tickUs + 1, m / tickUs, tickUs);
    }
  }

  /** Ticks wait for a network step and catch up: they come at one a tick, give or take one. */
  lemma HostTicksBursty(steps: nat, tickUs: nat)
    requires tickUs > 0
    ensures Bursty(TickTimes(steps, tickUs), tickUs, 1)
  {
    hide TickTimes, Within, TicksBy, ClockAt;
    TickTimesAreSteps(steps, tickUs);
    forall u, v | u in TickTimes(steps, tickUs) && v in TickTimes(steps, tickUs) && u < v
      ensures (|Within(TickTimes(steps, tickUs), u, v)| - 1) * tickUs <= v - u
    {
      var i: nat :| i <= steps && u == ClockAt(i);
      var j: nat :| j <= steps && v == ClockAt(j);
      ClockOrder(i, j);
      TickTimesCounted(i, j, steps, tickUs);
      LongerSpan(|Within(TickTimes(steps, tickUs), u, v)| - 1, TicksBy(j, tickUs) - TicksBy(i, tickUs) - 1, tickUs);
      TicksSpan(i, j, tickUs);
    }
  }

  lemma ClockOrder(i: nat, j: nat)
    requires ClockAt(i) < ClockAt(j)
    ensures i < j
  {
  }

  lemma TicksSpan(i: nat, j: nat, tickUs: nat)
    requires tickUs > 0 && i < j
    ensures (TicksBy(j, tickUs) - TicksBy(i, tickUs) - 1) * tickUs <= ClockAt(j) - ClockAt(i)
  {
    var u, v := ClockAt(i), ClockAt(j);
    var a, b := u / tickUs, v / tickUs;
    assert u == a * tickUs + u % tickUs && v == b * tickUs + v % tickUs;
    assert (b - a - 1) * tickUs == b * tickUs - a * tickUs - tickUs;
  }

  /** At 60 ticks a second or more the limits the server chooses are wide for records a network step apart. */
  lemma StepLimitsWide(maxRewindMs: U32, tickRateHz: U16)
    requires EffectiveRate(tickRateHz) >= 60
    ensures Wide(ServerLimits(maxRewindMs, tickRateHz), NETWORK_STEP_US, 0)
  {
    var rate := EffectiveRate(tickRateHz);
    var ticks := (maxRewindMs * rate + 999) / 1000;
    assert 1000 * ticks >= maxRewindMs * rate;
    LongerSpan(60, rate, maxRewindMs);
    WholeTicksCover(maxRewindMs, 60, NETWORK_STEP_US, ticks);
    assert (ticks + 1) * NETWORK_STEP_US >= ticks * NETWORK_STEP_US;
  }

  /** Everything a hosted server records, at ticks, joins and edits, is recorded at a network step. */
  ghost predicate AtSteps(times: set<nat>, steps: nat) {
    forall u :: u in times ==> exists k: nat :: k <= steps && u == ClockAt(k)
  }

  lemma StepsBursty(times: set<nat>, steps: nat)
    requires AtSteps(times, steps)
    ensures Bursty(times, NETWORK_STEP_US, 0)
  {
    hide Bursty;
    assert Separated(times, NETWORK_STEP_US);
    SeparatedBursty(times, NETWORK_STEP_US);
  }

  /**
   In a hosting process the cap of the limits the server chooses never fires: at 60 ticks a second or more whatever is
   recorded, and at any rate whose tick is not rounded down as long as only the ticks record.
   */
  lemma HostRunSteady(maxRewindMs: U32, tickRateHz: U16, events: seq<Event>, steps: nat, now: nat)
    requires ClockAt(steps) <= now && forall e :: e in events ==> !e.NewConfig?
    requires (EffectiveRate(tickRateHz) >= 60 && AtSteps(RecordTimes(events), steps))
          || (EffectiveRate(tickRateHz) * TickIntervalUs(tickRateHz) >= 1_000_000
              && RecordTimes(events) <= TickTimes(steps, TickIntervalUs(tickRateHz)))
    ensures SteadyUntil(ServerLimits(maxRewindMs, tickRateHz), events, now)
  {
    hide SteadyUntil, Wide, Bursty, RecordTimes, TickTimes;
    var limits, times, tick := ServerLimits(maxRewindMs, tickRateHz), RecordTimes(events), TickIntervalUs(tickRateHz);
    if EffectiveRate(tickRateHz) >= 60 && AtSteps(times, steps) {
      StepLimitsWide(maxRewindMs, tickRateHz);
      StepsBursty(times, steps);
      StepsUpTo(times, steps);
      PacedSteady(limits, events, NETWORK_STEP_US, 0, now, times);
    } else {
      ServerLimitsWide(maxRewindMs, tickRateHz);
      HostTicksBursty(steps, tick);
      TickTimesAreSteps(steps, tick);
      PacedSteady(limits, events, tick, 1, now, TickTimes(steps, tick));
    }
  }

  lemma StepsUpTo(times: set<nat>, steps: nat)
    requires AtSteps(times, steps)
    ensures forall u :: u in times ==> u <= ClockAt(steps)
  {
  }
}
