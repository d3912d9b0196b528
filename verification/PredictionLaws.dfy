/** What every run of a prediction buffer keeps. */
module PredictionLaws {
  import opened Geometry
  import opened Paths
  import opened Prediction
  import opened Words

  datatype Event =
    | WasReset(state: Player)
    | DidRecord(command: Command, arena: Arena)
    | DidReconcile(authoritative: Player, ack: nat, arena: Arena, strategy: Strategy, windowMs: U32)
    | DidAdvance(dt: real)

  /** Every run keeps the durations positive, so display progress is always defined. */
  function Run(sim: Simulator, events: seq<Event>): (b: Buffer)
    ensures b.smoothing.duration > 0.0
  {
    if events == [] then FRESH
    else Step(Run(sim, events[..|events| - 1]), sim, events[|events| - 1])
  }

  function Step(b: Buffer, sim: Simulator, e: Event): (r: Buffer)
    requires b.smoothing.duration > 0.0
    ensures r.smoothing.duration > 0.0
  {
    match e
    case WasReset(state) => ResetTo(state)
    case DidRecord(command, arena) => Recorded(b, sim, command, arena)
    case DidReconcile(authoritative, ack, arena, strategy, windowMs) =>
      Reconciled(b, sim, authoritative, ack, arena, strategy, windowMs)
    case DidAdvance(dt) => Advanced(b, dt)
  }

  // ---------------------------------------------------------------------------------------------
  // The predicted state

  /** The commands recorded since the last reset. */
  function Issued(events: seq<Event>): seq<Command> {
    if events == [] then []
    else
      match events[|events| - 1]
      case WasReset(_) => []
      case DidRecord(command, _) => Issued(events[..|events| - 1]) + [command]
      case _ => Issued(events[..|events| - 1])
  }

  /** The newest acknowledgement of the whole run. */
  function LastAck(events: seq<Event>): nat {
    if events == [] then 0
    else
      match events[|events| - 1]
      case DidReconcile(_, ack, _, _, _) => ack
      case _ => LastAck(events[..|events| - 1])
  }

  function LastRecorded(events: seq<Event>): nat {
    if events == [] then 0
    else
      match events[|events| - 1]
      case DidRecord(command, _) => command.seqNo
      case _ => LastRecorded(events[..|events| - 1])
  }

  /** The state given by the last reset or reconciliation. */
  function Base(events: seq<Event>): Player {
    if events == [] then EMPTY_PLAYER
    else
      match events[|events| - 1]
      case WasReset(state) => state
      case DidReconcile(authoritative, _, _, _, _) => authoritative
      case _ => Base(events[..|events| - 1])
  }

  /** Command numbers strictly increase, acknowledgements never decrease and are of commands already numbered. */
  ghost predicate Disciplined(events: seq<Event>) {
    events == []
    || (Disciplined(events[..|events| - 1])
        && match events[|events| - 1]
           case DidRecord(command, _) =>
             command.seqNo > LastRecorded(events[..|events| - 1]) && command.seqNo > LastAck(events[..|events| - 1])
           case DidReconcile(_, ack, _, _, _) => ack >= LastAck(events[..|events| - 1])
           case _ => true)
  }

  /** The last base state and every command since then belong to `arena`. */
  ghost predicate ArenaSinceBase(events: seq<Event>, arena: Arena) {
    events == []
    || match events[|events| - 1]
       case WasReset(_) => true
       case DidReconcile(_, _, a, _, _) => a == arena
       case DidRecord(_, a) => a == arena && ArenaSinceBase(events[..|events| - 1], arena)
       case DidAdvance(_) => ArenaSinceBase(events[..|events| - 1], arena)
  }

  lemma {:induction false} UnackedAgain(commands: seq<Command>, a: nat, b: nat)
    requires a <= b
    ensures Unacked(Unacked(commands, a), b) == Unacked(commands, b)
  {
    if commands != [] {
      var init, last := commands[..|commands| - 1], commands[|commands| - 1];
      UnackedAgain(init, a, b);
      if last.seqNo > a {
        assert (Unacked(init, a) + [last])[..|Unacked(init, a)|] == Unacked(init, a);
      }
    }
  }

  lemma UnackedAppend(commands: seq<Command>, command: Command, ack: nat)
    ensures Unacked(commands + [command], ack)
         == Unacked(commands, ack) + if command.seqNo > ack then [command] else []
  {
    assert (commands + [command])[..|commands|] == commands;
  }

  /**
   The pending commands are exactly those recorded since the last reset and numbered above the last acknowledgement.
   */
  lemma {:induction false} PendingIsUnacked(sim: Simulator, events: seq<Event>)
    requires Disciplined(events)
    ensures Run(sim, events).pending == Unacked(Issued(events), LastAck(events))
  {
    hide Replay;
    if events != [] {
      var init := events[..|events| - 1];
      PendingIsUnacked(sim, init);
      match events[|events| - 1]
      case DidRecord(command, _) => UnackedAppend(Issued(init), command, LastAck(init));
      case DidReconcile(_, ack, _, _, _) => UnackedAgain(Issued(init), LastAck(init), ack);
      case _ =>
    }
  }

  lemma ReplayAppend(sim: Simulator, base: Player, commands: seq<Command>, command: Command, arena: Arena)
    ensures Replay(sim, base, commands + [command], arena) == sim(Replay(sim, base, commands, arena), command, arena)
  {
    assert (commands + [command])[..|commands|] == commands;
  }

  /**
   Over whole runs the predicted state is the replay, from the last base state, of exactly the recorded commands
   above the last acknowledgement.
   */
  lemma PredictedIsReplay(sim: Simulator, events: seq<Event>, arena: Arena)
    requires Disciplined(events) && ArenaSinceBase(events, arena)
    ensures Run(sim, events).predicted
         == Replay(sim, Base(events), Unacked(Issued(events), LastAck(events)), arena)
  {
    hide Replay, Run;
    PendingIsUnacked(sim, events);
    PredictedReplaysPending(sim, events, arena);
  }

  lemma {:induction false} PredictedReplaysPending(sim: Simulator, events: seq<Event>, arena: Arena)
    requires ArenaSinceBase(events, arena)
    ensures Run(sim, events).predicted == Replay(sim, Base(events), Run(sim, events).pending, arena)
  {
    hide Unacked, DistanceSquared, LerpPlayer;
    if events != [] {
      var init, e := events[..|events| - 1], events[|events| - 1];
      match e
      case DidRecord(command, _) =>
        PredictedReplaysPending(sim, init, arena);
        ReplayAppend(sim, Base(init), Run(sim, init).pending, command, arena);
      case DidAdvance(_) => PredictedReplaysPending(sim, init, arena);
      case _ =>
    }
  }

  // ---------------------------------------------------------------------------------------------
  // A server that applies the same commands

  ghost predicate NumbersIncrease(commands: seq<Command>) {
    forall i, j :: 0 <= i < j < |commands| ==> commands[i].seqNo < commands[j].seqNo
  }

  /** The commands numbered up to `ack`. */
  function Acked(commands: seq<Command>, ack: nat): seq<Command> {
    if commands == [] then []
    else
      var init, last := Acked(commands[..|commands| - 1], ack), commands[|commands| - 1];
      if last.seqNo <= ack then init + [last] else init
  }

  /** In increasing numbers the acknowledged commands come first. */
  lemma {:induction false} AckedThenUnacked(commands: seq<Command>, ack: nat)
    requires NumbersIncrease(commands)
    ensures Acked(commands, ack) + Unacked(commands, ack) == commands
  {
    if commands != [] {
      var init, last := commands[..|commands| - 1], commands[|commands| - 1];
      assert commands == init + [last];
      AckedThenUnacked(init, ack);
      if last.seqNo <= ack {
        assert forall c :: c in init ==> c.seqNo <= ack;
        NothingAbove(init, ack);
      }
    }
  }

  lemma {:induction false} NothingAbove(commands: seq<Command>, ack: nat)
    requires forall c :: c in commands ==> c.seqNo <= ack
    ensures Unacked(commands, ack) == []
  {
    if commands != [] {
      NothingAbove(commands[..|commands| - 1], ack);
    }
  }

  lemma {:induction false} ReplayConcat(sim: Simulator, base: Player, a: seq<Command>, b: seq<Command>, arena: Arena)
    ensures Replay(sim, base, a + b, arena) == Replay(sim, Replay(sim, base, a, arena), b, arena)
  {
    if b == [] {
      assert a + b == a;
    } else {
      ReplayConcat(sim, base, a, b[..|b| - 1], arena);
      assert (a + b)[..|a + b| - 1] == a + b[..|b| - 1];
    }
  }

  /** The state of the last reset. */
  function Start(events: seq<Event>): Player {
    if events == [] then EMPTY_PLAYER
    else
      match events[|events| - 1]
      case WasReset(state) => state
      case _ => Start(events[..|events| - 1])
  }

  /** Every authoritative state is the replay, since the last reset, of the commands it acknowledges. */
  ghost predicate FaithfulServer(sim: Simulator, events: seq<Event>, arena: Arena) {
    events == []
    || (FaithfulServer(sim, events[..|events| - 1], arena)
        && match events[|events| - 1]
           case DidReconcile(authoritative, ack, a, _, _) =>
             a == arena
             && authoritative
                == Replay(sim, Start(events[..|events| - 1]), Acked(Issued(events[..|events| - 1]), ack), arena)
           case DidRecord(_, a) => a == arena
           case _ => true)
  }

  lemma {:induction false} IssuedIncrease(events: seq<Event>)
    requires Disciplined(events)
    ensures NumbersIncrease(Issued(events))
    ensures forall c :: c in Issued(events) ==> c.seqNo <= LastRecorded(events)
  {
    if events != [] {
      IssuedIncrease(events[..|events| - 1]);
    }
  }

  /**
   If the server applies exactly the commands it acknowledges, reconciling changes nothing: the prediction is
   always the replay of every command since the reset, it is what is shown, and no correction is ever reported,
   however late or sparse the acknowledgements are.
   */
  lemma {:induction false} FaithfulServerNeverCorrects(sim: Simulator, events: seq<Event>, arena: Arena)
    requires Disciplined(events) && FaithfulServer(sim, events, arena)
    ensures var b := Run(sim, events);
      b.predicted == Replay(sim, Start(events), Issued(events), arena)
      && b.display == b.predicted && !b.smoothing.active
    ensures events != [] && events[|events| - 1].DidReconcile? ==>
      var e, b := events[|events| - 1], Run(sim, events[..|events| - 1]);
      var result := ReconcileResult(b, sim, e.authoritative, e.ack, e.arena, e.strategy);
      result.mode == NoCorrection && result.magnitudeSquared == 0.0 && Run(sim, events).predicted == b.predicted
  {
    hide Replay, Unacked, Acked, DistanceSquared, LerpPlayer, Square, Disciplined;
    if events != [] {
      var init, e := events[..|events| - 1], events[|events| - 1];
      DisciplinedInit(events);
      FaithfulServerNeverCorrects(sim, init, arena);
      match e
      case WasReset(_) => ReplayNothing(sim, e.state, arena);
      case DidRecord(command, _) => ReplayAppend(sim, Start(init), Issued(init), command, arena);
      case DidReconcile(authoritative, ack, _, strategy, windowMs) =>
        ReplaysAllIssued(sim, events, arena);
        NoCorrectionAtZero(strategy);
      case DidAdvance(_) =>
    } else {
      ReplayNothing(sim, EMPTY_PLAYER, arena);
    }
  }

  lemma DisciplinedInit(events: seq<Event>)
    requires events != [] && Disciplined(events)
    ensures Disciplined(events[..|events| - 1])
  {
  }

  lemma ReplayNothing(sim: Simulator, base: Player, arena: Arena)
    ensures Replay(sim, base, [], arena) == base
  {
  }

  lemma NoCorrectionAtZero(strategy: Strategy)
    ensures ModeFor(0.0, strategy) == NoCorrection
  {
    assert Square(NO_CORRECTION) >= 0.0;
  }

  lemma ReplaysAllIssued(sim: Simulator, events: seq<Event>, arena: Arena)
    requires events != [] && events[|events| - 1].DidReconcile?
    requires Disciplined(events) && FaithfulServer(sim, events, arena)
    ensures var e, init := events[|events| - 1], events[..|events| - 1];
      Replay(sim, e.authoritative, Unacked(Run(sim, init).pending, e.ack), arena)
      == Replay(sim, Start(init), Issued(init), arena)
  {
    hide Replay, Unacked, Acked, Run;
    var e, init := events[|events| - 1], events[..|events| - 1];
    PendingIsUnacked(sim, init);
    UnackedAgain(Issued(init), LastAck(init), e.ack);
    IssuedIncrease(init);
    AckedThenUnacked(Issued(init), e.ack);
    ReplayConcat(sim, Start(init), Acked(Issued(init), e.ack), Unacked(Issued(init), e.ack), arena);
  }

  /**
   One reconciliation in any disciplined run: if the authoritative state is the replay of the acknowledged
   pending commands from the last base, the predicted state stays as it is, and nothing is corrected exactly
   when what is shown is within the no-correction distance of it.
   */
  lemma AgreeingServerKeepsPrediction(
    sim: Simulator, events: seq<Event>, arena: Arena, authoritative: Player, ack: nat, strategy: Strategy, windowMs: U32
  )
    requires Disciplined(events) && ArenaSinceBase(events, arena) && ack >= LastAck(events)
    requires authoritative == Replay(sim, Base(events), Acked(Run(sim, events).pending, ack), arena)
    ensures var b := Run(sim, events);
      Reconciled(b, sim, authoritative, ack, arena, strategy, windowMs).predicted == b.predicted
      && (ReconcileResult(b, sim, authoritative, ack, arena, strategy).mode == NoCorrection
          <==> !Beyond(DistanceSquared(b.display.position, b.predicted.position), NO_CORRECTION))
      && (!b.smoothing.active ==> ReconcileResult(b, sim, authoritative, ack, arena, strategy).mode == NoCorrection)
  {
    hide Run, Replay, Unacked, Acked, DistanceSquared, LerpPlayer, Square, Disciplined, ArenaSinceBase, Base;
    var b := Run(sim, events);
    ReplaysToPrediction(sim, events, arena, authoritative, ack);
    RunShows(sim, events);
    NoCorrectionAtZero(strategy);
  }

  lemma ReplaysToPrediction(sim: Simulator, events: seq<Event>, arena: Arena, authoritative: Player, ack: nat)
    requires Disciplined(events) && ArenaSinceBase(events, arena)
    requires authoritative == Replay(sim, Base(events), Acked(Run(sim, events).pending, ack), arena)
    ensures Replay(sim, authoritative, Unacked(Run(sim, events).pending, ack), arena) == Run(sim, events).predicted
  {
    hide Run, Replay, Unacked, Acked, NumbersIncrease;
    var b := Run(sim, events);
    PendingIncrease(sim, events);
    AckedThenUnacked(b.pending, ack);
    ReplayConcat(sim, Base(events), Acked(b.pending, ack), Unacked(b.pending, ack), arena);
    PredictedReplaysPending(sim, events, arena);
  }

  lemma PendingIncrease(sim: Simulator, events: seq<Event>)
    requires Disciplined(events)
    ensures NumbersIncrease(Run(sim, events).pending)
  {
    hide Run;
    PendingIsUnacked(sim, events);
    IssuedIncrease(events);
    UnackedKeepsIncreasing(Issued(events), LastAck(events));
  }

  lemma {:induction false} UnackedKeepsIncreasing(commands: seq<Command>, ack: nat)
    requires NumbersIncrease(commands)
    ensures NumbersIncrease(Unacked(commands, ack))
  {
    if commands != [] {
      var init := commands[..|commands| - 1];
      UnackedKeepsIncreasing(init, ack);
      assert forall c :: c in Unacked(init, ack) ==> c in init;
    }
  }

  // ---------------------------------------------------------------------------------------------
  // What is shown

  /**
   Without a correction the display is the prediction; with one it is on the segment from where the correction
   started to the prediction, which is no longer than the smoothing threshold.
   */
  ghost predicate ShownRight(b: Buffer) {
    var s := b.smoothing;
    s.duration > 0.0
    && if !s.active then b.display == b.predicted
       else s.target == b.predicted
            && 0.0 <= s.elapsed < s.duration
            && b.display == LerpPlayer(s.start, s.target, Progress(s.elapsed, s.duration))
            && !Beyond(DistanceSquared(s.start.position, s.target.position), SMOOTHING_THRESHOLD)
  }

  lemma {:induction false} RunShows(sim: Simulator, events: seq<Event>)
    ensures ShownRight(Run(sim, events))
  {
    hide ShownRight, Recorded, Reconciled, Advanced;
    if events == [] {
      FreshShows();
    } else {
      var init := events[..|events| - 1];
      RunShows(sim, init);
      StepShows(Run(sim, init), sim, events[|events| - 1]);
    }
  }

  lemma FreshShows()
    ensures ShownRight(FRESH)
  {
  }

  lemma StepShows(b: Buffer, sim: Simulator, e: Event)
    requires ShownRight(b)
    ensures ShownRight(Step(b, sim, e))
  {
    hide Replay, Unacked, DistanceSquared, LerpPlayer, Square, Progress;
    match e
    case DidReconcile(_, _, _, _, windowMs) => ProgressAt(0.0, WindowSeconds(windowMs));
    case DidAdvance(dt) => ProgressAt(b.smoothing.elapsed + dt, b.smoothing.duration);
    case _ =>
  }

  lemma ProgressAt(elapsed: real, duration: real)
    requires duration > 0.0
    ensures Progress(elapsed, duration) < 1.0 <==> elapsed < duration
    ensures Progress(0.0, duration) == 0.0
  {
    var alpha := elapsed / duration;
    assert alpha * duration == elapsed;
    if alpha < 1.0 {
      MulStrict(alpha, 1.0, duration);
    } else {
      MulMono(1.0, alpha, duration);
    }
  }

  lemma SquareShrinks(r: real, beta: real)
    requires 0.0 <= beta <= 1.0
    ensures Square(r * beta) <= Square(r)
  {
    var q := beta * beta;
    assert q <= 1.0 by {
      MulMono(beta, 1.0, beta);
      assert 1.0 * beta == beta;
    }
    assert (r * beta) * (r * beta) == (r * r) * q;
    MulMono(q, 1.0, Square(r));
  }

  lemma LerpShrinks(a: real, b: real, alpha: real)
    requires 0.0 <= alpha <= 1.0
    ensures Square(Lerp(a, b, alpha) - b) <= Square(a - b)
  {
    assert Lerp(a, b, alpha) - b == (a - b) * (1.0 - alpha);
    SquareShrinks(a - b, 1.0 - alpha);
  }

  /** In every run the shown position is within the smoothing threshold of the predicted one. */
  lemma DisplayNearPrediction(sim: Simulator, events: seq<Event>)
    ensures var b := Run(sim, events);
      !Beyond(DistanceSquared(b.display.position, b.predicted.position), SMOOTHING_THRESHOLD)
  {
    hide Run, Square, Lerp;
    var b := Run(sim, events);
    RunShows(sim, events);
    var s := b.smoothing;
    if s.active {
      var alpha, from, to := Progress(s.elapsed, s.duration), s.start.position, s.target.position;
      LerpShrinks(from.x, to.x, alpha);
      LerpShrinks(from.y, to.y, alpha);
      LerpShrinks(from.z, to.z, alpha);
    }
  }

  /** A smooth correction starts where the player was shown: only fields that are not interpolated change at once. */
  lemma SmoothReconcileHoldsStill(
    b: Buffer, sim: Simulator, authoritative: Player, ack: nat, arena: Arena, strategy: Strategy, windowMs: U32
  )
    requires ReconcileResult(b, sim, authoritative, ack, arena, strategy).mode == SmoothCorrection
    ensures var shown := Reconciled(b, sim, authoritative, ack, arena, strategy, windowMs).display;
      shown.position == b.display.position && shown.velocity == b.display.velocity
      && shown.yaw == b.display.yaw && shown.pitch == b.display.pitch
  {
    hide Replay, Unacked, DistanceSquared;
    assert forall x: real, y: real :: Lerp(x, y, 0.0) == x;
  }

  // ---------------------------------------------------------------------------------------------
  // Frame rates

  /** Nothing the buffer does or shows later tells the two apart. */
  ghost predicate SameOnScreen(a: Buffer, b: Buffer) {
    a.predicted == b.predicted && a.display == b.display && a.pending == b.pending
    && if a.smoothing.active then a.smoothing == b.smoothing else !b.smoothing.active
  }

  /** Whatever happens next, two such buffers stay alike and report the same corrections. */
  lemma SameStaysSame(a: Buffer, b: Buffer, sim: Simulator, e: Event)
    requires SameOnScreen(a, b) && a.smoothing.duration > 0.0 && b.smoothing.duration > 0.0
    ensures SameOnScreen(Step(a, sim, e), Step(b, sim, e))
    ensures e.DidReconcile? ==>
      ReconcileResult(a, sim, e.authoritative, e.ack, e.arena, e.strategy)
      == ReconcileResult(b, sim, e.authoritative, e.ack, e.arena, e.strategy)
  {
    hide Replay, Unacked, DistanceSquared, LerpPlayer, Square;
  }

  lemma AdvanceTwice(b: Buffer, x: real, y: real)
    requires ShownRight(b) && x >= 0.0 && y >= 0.0
    ensures SameOnScreen(Advanced(Advanced(b, x), y), Advanced(b, x + y))
  {
    hide LerpPlayer, DistanceSquared, Square;
    var s := b.smoothing;
    if s.active && x > 0.0 && y > 0.0 {
      ProgressGrows(s.elapsed + x, s.elapsed + x + y, s.duration);
    }
  }

  lemma ProgressGrows(a: real, b: real, duration: real)
    requires duration > 0.0 && a <= b
    ensures Progress(a, duration) <= Progress(b, duration)
  {
    MulMono(a, b, 1.0 / duration);
    assert a / duration == a * (1.0 / duration) && b / duration == b * (1.0 / duration);
  }

  function Sum(xs: seq<real>): real {
    if xs == [] then 0.0 else Sum(xs[..|xs| - 1]) + xs[|xs| - 1]
  }

  function AdvancedBy(b: Buffer, frames: seq<real>): (r: Buffer)
    requires b.smoothing.duration > 0.0
    ensures r.smoothing.duration > 0.0
  {
    if frames == [] then b else Advanced(AdvancedBy(b, frames[..|frames| - 1]), frames[|frames| - 1])
  }

  /** The display does not depend on the frame rate: any frames show the same as one frame of their total length. */
  lemma {:induction false} FrameRateInvisible(sim: Simulator, events: seq<Event>, frames: seq<real>)
    requires forall x :: x in frames ==> x >= 0.0
    ensures Sum(frames) >= 0.0
    ensures SameOnScreen(AdvancedBy(Run(sim, events), frames), Advanced(Run(sim, events), Sum(frames)))
  {
    hide Advanced, Run, ShownRight;
    var b := Run(sim, events);
    if frames == [] {
      AdvanceByNothing(b);
    } else {
      var init, x := frames[..|frames| - 1], frames[|frames| - 1];
      assert forall y :: y in init ==> y in frames;
      FrameRateInvisible(sim, events, init);
      RunShows(sim, events);
      assert x in frames;
      AdvanceSame(AdvancedBy(b, init), Advanced(b, Sum(init)), x);
      AdvanceTwice(b, Sum(init), x);
    }
  }

  lemma AdvanceByNothing(b: Buffer)
    requires b.smoothing.duration > 0.0
    ensures Advanced(b, 0.0) == b
  {
  }

  lemma AdvanceSame(a: Buffer, b: Buffer, x: real)
    requires SameOnScreen(a, b) && a.smoothing.duration > 0.0 && b.smoothing.duration > 0.0
    ensures SameOnScreen(Advanced(a, x), Advanced(b, x))
  {
    hide LerpPlayer;
  }

  // ---------------------------------------------------------------------------------------------
  // Which corrections are smoothed, and how they run

  /**
   Every reconciliation, by the squared distance from what is shown to the replay of what is still pending: none up to
   0.0001, smoothed exactly under the smooth strategy and up to 0.35, and snapped otherwise. Without smoothing the
   replay is shown at once; with it a correction from what was shown to the replay runs for the window, at least a
   millisecond.
   */
  lemma ReconcileDecides(
    b: Buffer, sim: Simulator, authoritative: Player, ack: nat, arena: Arena, strategy: Strategy, windowMs: U32
  )
    ensures var kept := Unacked(b.pending, ack);
      var replay := Replay(sim, authoritative, kept, arena);
      var off := DistanceSquared(b.display.position, replay.position);
      var result := ReconcileResult(b, sim, authoritative, ack, arena, strategy);
      var after := Reconciled(b, sim, authoritative, ack, arena, strategy, windowMs);
      && result.magnitudeSquared == off && result.replayedCommandCount == |kept|
      && (result.mode.NoCorrection? <==> off <= 0.0001 * 0.0001)
      && (result.mode.SmoothCorrection? <==> strategy.Smooth? && 0.0001 * 0.0001 < off <= 0.35 * 0.35)
      && (result.mode.SnapCorrection? <==> off > 0.0001 * 0.0001 && (strategy.Snap? || off > 0.35 * 0.35))
      && after.predicted == replay && after.pending == kept
      && (if result.mode.SmoothCorrection? then
            after.smoothing
            == Smoothing(true, b.display, replay, 0.0, (if windowMs < 1 then 1 else windowMs) as real / 1000.0)
          else after.display == replay && !after.smoothing.active)
  {
    hide Replay, Unacked, DistanceSquared, LerpPlayer;
    assert Square(NO_CORRECTION) == 0.0001 * 0.0001 && Square(SMOOTHING_THRESHOLD) == 0.35 * 0.35;
    assert Square(FORCED_SNAP_THRESHOLD) == 1.5 * 1.5;
  }

  /** `x` is the share `part` of the way from `from` to `to`. */
  ghost predicate OnTheWay(x: real, from: real, to: real, part: real) {
    x - from == (to - from) * part
  }

  /** The fields that are smoothed are that far on their way, and the others are the target's. */
  ghost predicate PlayerOnTheWay(x: Player, from: Player, to: Player, part: real) {
    && (forall axis :: OnTheWay(At(x.position, axis), At(from.position, axis), At(to.position, axis), part))
    && (forall axis :: OnTheWay(At(x.velocity, axis), At(from.velocity, axis), At(to.velocity, axis), part))
    && OnTheWay(x.yaw, from.yaw, to.yaw, part) && OnTheWay(x.pitch, from.pitch, to.pitch, part)
    && x.(position := to.position, velocity := to.velocity, yaw := to.yaw, pitch := to.pitch) == to
  }

  lemma LerpIsOnTheWay(from: Player, to: Player, part: real)
    ensures PlayerOnTheWay(LerpPlayer(from, to, part), from, to, part)
  {
    hide OnTheWay, Lerp;
    var x := LerpPlayer(from, to, part);
    forall axis
      ensures OnTheWay(At(x.position, axis), At(from.position, axis), At(to.position, axis), part)
      ensures OnTheWay(At(x.velocity, axis), At(from.velocity, axis), At(to.velocity, axis), part)
    {
      NumberOnTheWay(At(from.position, axis), At(to.position, axis), part);
      NumberOnTheWay(At(from.velocity, axis), At(to.velocity, axis), part);
    }
    NumberOnTheWay(from.yaw, to.yaw, part);
    NumberOnTheWay(from.pitch, to.pitch, part);
  }

  lemma NumberOnTheWay(from: real, to: real, part: real)
    ensures OnTheWay(Lerp(from, to, part), from, to, part)
  {
  }

  /**
   A running correction in any run: after `dt` more the display is as far on its way from start to prediction as the
   time gone is a share of the duration, and once the duration is over it is the prediction and no correction runs.
   */
  lemma CorrectionRuns(sim: Simulator, events: seq<Event>, dt: real)
    requires Run(sim, events).smoothing.active && dt > 0.0
    ensures var b := Run(sim, events);
      var s, after := b.smoothing, Advanced(b, dt);
      && after.predicted == b.predicted && after.pending == b.pending
      && (if s.elapsed + dt < s.duration then
            after.smoothing == s.(elapsed := s.elapsed + dt)
            && PlayerOnTheWay(after.display, s.start, b.predicted, (s.elapsed + dt) / s.duration)
          else after.display == b.predicted && !after.smoothing.active)
  {
    hide Run, LerpPlayer, PlayerOnTheWay, DistanceSquared;
    var b := Run(sim, events);
    RunShows(sim, events);
    var elapsed := b.smoothing.elapsed + dt;
    ProgressIs(elapsed, b.smoothing.duration);
    hide Progress;
    LerpIsOnTheWay(b.smoothing.start, b.smoothing.target, elapsed / b.smoothing.duration);
  }

  lemma ProgressIs(elapsed: real, duration: real)
    requires duration > 0.0 && elapsed >= 0.0
    ensures Progress(elapsed, duration) == if elapsed < duration then elapsed / duration else 1.0
  {
    var share := elapsed / duration;
    assert share * duration == elapsed;
    assert (1.0 - share) * duration == duration - elapsed;
    SameSign(1.0 - share, duration);
    SameSign(share, duration);
  }

  lemma SameSign(a: real, d: real)
    requires d > 0.0
    ensures (a * d > 0.0 <==> a > 0.0) && (a * d < 0.0 <==> a < 0.0)
  {
  }
}
