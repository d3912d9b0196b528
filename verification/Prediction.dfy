/**
 The client's prediction buffer: the commands the server has not acknowledged yet, their replay over an
 authoritative state, and the correction that hides the difference on the screen.
 */
module Prediction {
  import opened Geometry
  import opened Paths
  import opened SimTypes
  import opened Words

  type Player = PlayerState<real>

  /** A command, with the fields the movement rules read. */
  datatype Command = Command(
    seqNo: nat, dtSeconds: real, moveX: real, moveY: real, yaw: real, pitch: real, buttons: U32)

  datatype CollisionBox = CollisionBox(center: Point, halfSize: Point)

  /** What a command is applied in: the movement environment and the simulation constants. */
  datatype Arena = Arena(arenaHalfSize: real, collisionBoxes: seq<CollisionBox>, config: SimConfig<real>)

  /** `applyPlayerCommand`: any function of the state, the command and the arena. */
  type Simulator = (Player, Command, Arena) -> Player

  const NO_CORRECTION := 0.0001
  const SMOOTHING_THRESHOLD := 0.35
  const FORCED_SNAP_THRESHOLD := 1.5

  const EMPTY_PLAYER: Player :=
    PlayerState(0, Vec3(0.0, 1.7, 0.0), Vec3(0.0, 0.0, 0.0), 0.0, 0.0, 100.0, 100.0, 0.0, 0, true)

  datatype Mode = NoCorrection | SmoothCorrection | SnapCorrection

  datatype Strategy = Snap | Smooth

  /** The magnitude is kept squared. */
  datatype Reconciliation = Reconciliation(mode: Mode, magnitudeSquared: real, replayedCommandCount: nat)

  datatype Smoothing = Smoothing(active: bool, start: Player, target: Player, elapsed: real, duration: real)

  const IDLE_SMOOTHING := Smoothing(false, EMPTY_PLAYER, EMPTY_PLAYER, 0.0, 0.25)

  datatype Buffer = Buffer(predicted: Player, display: Player, pending: seq<Command>, smoothing: Smoothing)

  const FRESH := Buffer(EMPTY_PLAYER, EMPTY_PLAYER, [], IDLE_SMOOTHING)

  // ---------------------------------------------------------------------------------------------
  // The specification

  function LerpPlayer(from: Player, to: Player, alpha: real): Player {
    to.(position := LerpVec3(from.position, to.position, alpha),
        velocity := LerpVec3(from.velocity, to.velocity, alpha),
        yaw := Lerp(from.yaw, to.yaw, alpha),
        pitch := Lerp(from.pitch, to.pitch, alpha))
  }

  /** The state after `commands`, in order, from `base`. */
  function Replay(sim: Simulator, base: Player, commands: seq<Command>, arena: Arena): Player {
    if commands == [] then base
    else sim(Replay(sim, base, commands[..|commands| - 1], arena), commands[|commands| - 1], arena)
  }

  /** The commands numbered above `ack`, in order. */
  function Unacked(commands: seq<Command>, ack: nat): (r: seq<Command>)
    ensures forall c :: c in r <==> c in commands && c.seqNo > ack
  {
    if commands == [] then []
    else
      var init, last := Unacked(commands[..|commands| - 1], ack), commands[|commands| - 1];
      if last.seqNo <= ack then init else init + [last]
  }

  function ResetTo(state: Player): Buffer {
    Buffer(state, state, [], IDLE_SMOOTHING)
  }

  function Recorded(b: Buffer, sim: Simulator, command: Command, arena: Arena): Buffer {
    var predicted := sim(b.predicted, command, arena);
    Buffer(predicted, predicted, b.pending + [command], b.smoothing.(active := false))
  }

  function WindowSeconds(smoothWindowMs: U32): (r: real)
    ensures r >= 0.001
  {
    var seconds := smoothWindowMs as real / 1000.0;
    if seconds < 0.001 then 0.001 else seconds
  }

  function ModeFor(distanceSquared: real, strategy: Strategy): Mode {
    if !Beyond(distanceSquared, NO_CORRECTION) then NoCorrection
    else if strategy == Smooth && !Beyond(distanceSquared, SMOOTHING_THRESHOLD)
            && distanceSquared < Square(FORCED_SNAP_THRESHOLD) then SmoothCorrection
    else SnapCorrection
  }

  function ReconcileResult(b: Buffer, sim: Simulator, authoritative: Player, ack: nat, arena: Arena, strategy: Strategy)
    : Reconciliation
  {
    var replayed := Replay(sim, authoritative, Unacked(b.pending, ack), arena);
    var d := DistanceSquared(b.display.position, replayed.position);
    Reconciliation(ModeFor(d, strategy), d, |Unacked(b.pending, ack)|)
  }

  function Reconciled(
    b: Buffer, sim: Simulator, authoritative: Player, ack: nat, arena: Arena, strategy: Strategy, windowMs: U32
  ): Buffer
  {
    var pending := Unacked(b.pending, ack);
    var replayed := Replay(sim, authoritative, pending, arena);
    if ReconcileResult(b, sim, authoritative, ack, arena, strategy).mode.SmoothCorrection? then
      Buffer(replayed, LerpPlayer(b.display, replayed, 0.0), pending,
             Smoothing(true, b.display, replayed, 0.0, WindowSeconds(windowMs)))
    else Buffer(replayed, replayed, pending, b.smoothing.(active := false))
  }

  /** How far a correction is, clamped to 0..1; durations are always positive. */
  function Progress(elapsed: real, duration: real): real
    requires duration > 0.0
  {
    var alpha := elapsed / duration;
    if alpha < 0.0 then 0.0 else if alpha > 1.0 then 1.0 else alpha
  }

  function Advanced(b: Buffer, dt: real): (r: Buffer)
    requires b.smoothing.duration > 0.0
    ensures r.smoothing.duration == b.smoothing.duration
  {
    if !b.smoothing.active || dt <= 0.0 then b
    else
      var s := b.smoothing.(elapsed := b.smoothing.elapsed + dt);
      var alpha := Progress(s.elapsed, s.duration);
      if alpha >= 1.0 then b.(display := s.target, smoothing := s.(active := false))
      else b.(display := LerpPlayer(s.start, s.target, alpha), smoothing := s)
  }

  // ---------------------------------------------------------------------------------------------
  // The code

  class PredictionBuffer {
    const sim: Simulator
    var predictedState: Player
    var displayState: Player
    var pendingCommands: seq<Command>
    var smoothCorrection: Smoothing

    function State(): Buffer
      reads this
    {
      Buffer(predictedState, displayState, pendingCommands, smoothCorrection)
    }

    constructor (sim: Simulator)
      ensures this.sim == sim && State() == FRESH
    {
      this.sim := sim;
      predictedState, displayState, pendingCommands, smoothCorrection := EMPTY_PLAYER, EMPTY_PLAYER, [], IDLE_SMOOTHING;
    }

    method Reset(state: Player)
      modifies this
      ensures State() == ResetTo(state)
    {
      predictedState := state;
      displayState := state;
      pendingCommands := [];
      smoothCorrection := IDLE_SMOOTHING;
    }

    method RecordCommand(command: Command, arena: Arena)
      modifies this
      ensures State() == Recorded(old(State()), sim, command, arena)
    {
      pendingCommands := pendingCommands + [command];
      predictedState := sim(predictedState, command, arena);
      displayState := predictedState;
      smoothCorrection := smoothCorrection.(active := false);
    }

    /** Erases the acknowledged commands, keeping the order of the rest. */
    method EraseAcked(ack: nat)
      modifies this`pendingCommands
      ensures pendingCommands == Unacked(old(pendingCommands), ack)
    {
      var kept := [];
      for i := 0 to |pendingCommands|
        invariant pendingCommands == old(pendingCommands)
        invariant kept == Unacked(pendingCommands[..i], ack)
      {
        assert pendingCommands[..i + 1][..i] == pendingCommands[..i];
        if pendingCommands[i].seqNo > ack {
          kept := kept + [pendingCommands[i]];
        }
      }
      assert pendingCommands[..|pendingCommands|] == pendingCommands;
      pendingCommands := kept;
    }

    method ReplayPending(authoritative: Player, arena: Arena) returns (replayed: Player)
      ensures replayed == Replay(sim, authoritative, pendingCommands, arena)
    {
      replayed := authoritative;
      for i := 0 to |pendingCommands|
        invariant replayed == Replay(sim, authoritative, pendingCommands[..i], arena)
      {
        assert pendingCommands[..i + 1][..i] == pendingCommands[..i];
        replayed := sim(replayed, pendingCommands[i], arena);
      }
      assert pendingCommands[..|pendingCommands|] == pendingCommands;
    }

    method Reconcile(authoritative: Player, ack: nat, arena: Arena, strategy: Strategy, smoothWindowMs: U32)
      returns (result: Reconciliation)
      modifies this
      ensures State() == Reconciled(old(State()), sim, authoritative, ack, arena, strategy, smoothWindowMs)
      ensures result == ReconcileResult(old(State()), sim, authoritative, ack, arena, strategy)
    {
      hide Replay, Unacked, DistanceSquared, LerpPlayer, WindowSeconds;
      EraseAcked(ack);
      var replayed := ReplayPending(authoritative, arena);
      var previousDisplay := displayState;
      var magnitudeSquared := DistanceSquared(displayState.position, replayed.position);
      var count := |pendingCommands|;
      predictedState := replayed;
      displayState := replayed;
      smoothCorrection := smoothCorrection.(active := false);
      if !Beyond(magnitudeSquared, NO_CORRECTION) {
        return Reconciliation(NoCorrection, magnitudeSquared, count);
      }
      if strategy == Smooth && !Beyond(magnitudeSquared, SMOOTHING_THRESHOLD)
         && magnitudeSquared < Square(FORCED_SNAP_THRESHOLD) {
        smoothCorrection := Smoothing(true, previousDisplay, replayed, 0.0, WindowSeconds(smoothWindowMs));
        displayState := LerpPlayer(previousDisplay, replayed, 0.0);
        return Reconciliation(SmoothCorrection, magnitudeSquared, count);
      }
      return Reconciliation(SnapCorrection, magnitudeSquared, count);
    }

    method AdvanceDisplay(dt: real)
      requires smoothCorrection.duration > 0.0
      modifies this
      ensures State() == Advanced(old(State()), dt)
    {
      hide LerpPlayer, Progress;
      if !smoothCorrection.active || dt <= 0.0 {
        return;
      }
      smoothCorrection := smoothCorrection.(elapsed := smoothCorrection.elapsed + dt);
      var alpha := Progress(smoothCorrection.elapsed, smoothCorrection.duration);
      displayState := LerpPlayer(smoothCorrection.start, smoothCorrection.target, alpha);
      if alpha >= 1.0 {
        displayState := smoothCorrection.target;
        smoothCorrection := smoothCorrection.(active := false);
      }
    }
  }
}
