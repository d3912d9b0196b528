/**
 The client around its prediction buffer: the gate that lets only newer snapshots through, what an accepted
 snapshot does to the buffer, and the resets at death and respawn.
 */
module ClientGate {
  import opened Prediction
  import opened Words

  datatype Snapshot = Snapshot(localPlayerState: Player, ackedInputSeq: nat)

  /** A `WorldSnapshot` packet: its 32-bit sequence number and the peer it is for. */
  datatype Packet = Packet(seqNo: U32, peerId: U16, snapshot: Snapshot)

  /** The participant settings, as they are in force. */
  datatype Settings = Settings(
    interpolationEnabled: bool, predictionEnabled: bool, strategy: Strategy, smoothWindowMs: U32)

  /** What a snapshot's roster says of the client's own settings: nothing when it has no entry of a human for it. */
  datatype Announcement = NoEntry | Announced(settings: Settings)

  /** One setting changed in the overlay. */
  datatype Control =
    | Interpolation(enabled: bool)
    | Prediction(enabled: bool)
    | Reconciliation(strategy: Strategy)
    | SmoothWindow(windowMs: int)

  datatype Client = Client(
    peerId: U16,
    hasSnapshot: bool,
    lastSnapshotSeq: U32,
    commandSeq: nat,
    lastAckedInputSeq: nat,
    settings: Settings,
    announced: Announcement,
    latestState: Player,
    localPlayer: Player,
    respawnPending: bool,
    buffer: Buffer)

  const DEFAULT_SETTINGS := Settings(true, true, Smooth, 250)

  const STARTED := Client(0, false, 0, 0, 0, DEFAULT_SETTINGS, NoEntry, EMPTY_PLAYER, EMPTY_PLAYER, false, FRESH)

  // ---------------------------------------------------------------------------------------------
  // The specification

  /** Serial number comparison: ahead by less than half of the 32-bit range. */
  predicate IsNewerSequence(candidate: U32, reference: U32) {
    candidate != reference && (candidate - reference) % 0x1_0000_0000 < 0x8000_0000
  }

  predicate Accepts(c: Client, p: Packet) {
    (c.peerId == 0 || p.peerId == c.peerId) && (!c.hasSnapshot || IsNewerSequence(p.seqNo, c.lastSnapshotSeq))
  }

  /** The client has changed a setting since the server's last announcement. */
  predicate Overridden(c: Client) {
    c.announced.Announced? && c.announced.settings != c.settings
  }

  /** Announced settings are noted, and taken over unless a change of the client's own is still to be announced. */
  function WithSettings(c: Client, entry: Announcement): Client {
    if !c.hasSnapshot || c.peerId == 0 || entry.NoEntry? then c
    else if Overridden(c) && c.settings != entry.settings then c.(announced := entry)
    else
      c.(settings := entry.settings,
         announced := entry,
         localPlayer :=
           if c.settings.predictionEnabled == entry.settings.predictionEnabled then c.localPlayer
           else if entry.settings.predictionEnabled then c.buffer.display else c.latestState)
  }

  function WithDeathState(c: Client, state: Player, previousHealth: real): Client {
    if !(state.health > 0.0) then
      c.(buffer := ResetTo(state), localPlayer := state, respawnPending := true)
    else if !(previousHealth > 0.0) || c.respawnPending then
      c.(buffer := ResetTo(state), localPlayer := state, respawnPending := false)
    else c
  }

  function Synced(c: Client, sim: Simulator, s: Snapshot, arena: Arena): Client {
    var b := Reconciled(c.buffer, sim, s.localPlayerState, s.ackedInputSeq, arena,
                        c.settings.strategy, c.settings.smoothWindowMs);
    c.(peerId :=
         if c.peerId == 0 && s.localPlayerState.playerId > 0 then s.localPlayerState.playerId % 0x1_0000 else c.peerId,
       hasSnapshot := true,
       lastAckedInputSeq := s.ackedInputSeq,
       latestState := s.localPlayerState,
       localPlayer := if c.settings.predictionEnabled then b.display else s.localPlayerState,
       buffer := b)
  }

  function Received(c: Client, sim: Simulator, p: Packet, arena: Arena, entry: Announcement): Client {
    if !Accepts(c, p) then c
    else
      var synced := Synced(c.(lastSnapshotSeq := p.seqNo), sim, p.snapshot, arena);
      WithDeathState(WithSettings(synced, entry), p.snapshot.localPlayerState, c.localPlayer.health)
  }

  /** A command with the next number, predicted when prediction is on. */
  function Commanded(c: Client, sim: Simulator, input: Command, arena: Arena): Client {
    var command := input.(seqNo := c.commandSeq + 1);
    if c.settings.predictionEnabled then
      var b := Recorded(c.buffer, sim, command, arena);
      c.(commandSeq := command.seqNo, buffer := b, localPlayer := b.display)
    else c.(commandSeq := command.seqNo, localPlayer := if c.hasSnapshot then c.latestState else c.localPlayer)
  }

  /** An idle command takes the next number, and is neither predicted nor kept. */
  function Idled(c: Client): Client {
    if c.peerId == 0 then c else c.(commandSeq := c.commandSeq + 1)
  }

  function Framed(c: Client, dt: real): Client
    requires c.buffer.smoothing.duration > 0.0
  {
    if c.settings.predictionEnabled && c.hasSnapshot then
      var b := Advanced(c.buffer, dt);
      c.(buffer := b, localPlayer := b.display)
    else c
  }

  function Changed(s: Settings, control: Control): Settings {
    match control
    case Interpolation(enabled) => s.(interpolationEnabled := enabled)
    case Prediction(enabled) => s.(predictionEnabled := enabled)
    case Reconciliation(strategy) => s.(strategy := strategy)
    case SmoothWindow(ms) => s.(smoothWindowMs := if ms < 0 then 0 else if ms > 1000 then 1000 else ms)
  }

  /** A setting changed in the overlay, before the server hears of it. */
  function Previewed(c: Client, control: Control): Client {
    if c.peerId == 0 then c
    else
      var s := Changed(c.settings, control);
      c.(settings := s,
         localPlayer :=
           if c.settings.predictionEnabled == s.predictionEnabled || !c.hasSnapshot then c.localPlayer
           else if s.predictionEnabled then c.buffer.display else c.latestState)
  }

  // ---------------------------------------------------------------------------------------------
  // The code

  class ClientSync {
    const prediction: PredictionBuffer
    var peerId: U16
    var hasSnapshot: bool
    var lastSnapshotPacketSeq: U32
    var commandSeq: nat
    var lastAckedInputSeq: nat
    var settings: Settings
    var announced: Announcement
    var latestState: Player
    var localPlayerState: Player
    var localRespawnPending: bool

    function State(): Client
      reads this, prediction
    {
      Client(peerId, hasSnapshot, lastSnapshotPacketSeq, commandSeq, lastAckedInputSeq, settings, announced,
             latestState, localPlayerState, localRespawnPending, prediction.State())
    }

    constructor (sim: Simulator)
      ensures fresh(prediction) && prediction.sim == sim && State() == STARTED
    {
      prediction := new PredictionBuffer(sim);
      peerId, hasSnapshot, lastSnapshotPacketSeq, commandSeq, lastAckedInputSeq := 0, false, 0, 0, 0;
      settings, announced := DEFAULT_SETTINGS, NoEntry;
      latestState, localPlayerState, localRespawnPending := EMPTY_PLAYER, EMPTY_PLAYER, false;
    }

    method HandleWorldSnapshot(packet: Packet, arena: Arena, entry: Announcement)
      modifies this, prediction
      ensures State() == Received(old(State()), prediction.sim, packet, arena, entry)
    {
      hide Reconciled, ReconcileResult;
      if peerId != 0 && packet.peerId != peerId {
        return;
      }
      if hasSnapshot && !IsNewerSequence(packet.seqNo, lastSnapshotPacketSeq) {
        return;
      }
      lastSnapshotPacketSeq := packet.seqNo;
      var previousHealth := localPlayerState.health;
      ApplySnapshot(packet.snapshot, arena);
      ApplySettings(entry);
      UpdateLocalDeathState(packet.snapshot.localPlayerState, previousHealth);
    }

    method ApplySnapshot(snapshot: Snapshot, arena: Arena)
      modifies this, prediction
      ensures State() == Synced(old(State()), prediction.sim, snapshot, arena)
    {
      hide Reconciled, ReconcileResult;
      latestState := snapshot.localPlayerState;
      hasSnapshot := true;
      if peerId == 0 && snapshot.localPlayerState.playerId > 0 {
        peerId := snapshot.localPlayerState.playerId % 0x1_0000;
      }
      lastAckedInputSeq := snapshot.ackedInputSeq;
      var _ := prediction.Reconcile(snapshot.localPlayerState, snapshot.ackedInputSeq, arena,
                                    settings.strategy, settings.smoothWindowMs);
      localPlayerState := if settings.predictionEnabled then prediction.displayState else snapshot.localPlayerState;
    }

    method ApplySettings(entry: Announcement)
      modifies this
      ensures State() == WithSettings(old(State()), entry)
    {
      if !hasSnapshot || peerId == 0 || entry.NoEntry? {
        return;
      }
      var pendingLocalOverride := announced.Announced? && settings != announced.settings;
      announced := entry;
      if !pendingLocalOverride || settings == entry.settings {
        var wasEnabled := settings.predictionEnabled;
        settings := entry.settings;
        if wasEnabled != settings.predictionEnabled {
          localPlayerState := if settings.predictionEnabled then prediction.displayState else latestState;
        }
      }
    }

    method UpdateLocalDeathState(state: Player, previousHealth: real)
      modifies this, prediction
      ensures State() == WithDeathState(old(State()), state, previousHealth)
    {
      var wasAlive := previousHealth > 0.0;
      var isAlive := state.health > 0.0;
      if !isAlive {
        prediction.Reset(state);
        localPlayerState := state;
        if wasAlive || !localRespawnPending {
          localRespawnPending := true;
        }
        return;
      }
      if !wasAlive || localRespawnPending {
        prediction.Reset(state);
        localPlayerState := state;
      }
      localRespawnPending := false;
    }

    method ApplyInput(input: Command, arena: Arena)
      modifies this, prediction
      ensures State() == Commanded(old(State()), prediction.sim, input, arena)
    {
      hide Recorded;
      commandSeq := commandSeq + 1;
      var command := input.(seqNo := commandSeq);
      if !settings.predictionEnabled {
        localPlayerState := if hasSnapshot then latestState else localPlayerState;
        return;
      }
      prediction.RecordCommand(command, arena);
      localPlayerState := prediction.displayState;
    }

    /** Sends an idle command when the client has a peer id and the keep-alive interval is over. */
    method MaybeSendIdleKeepalive(due: bool) returns (sent: bool)
      modifies this`commandSeq
      ensures State() == if due then Idled(old(State())) else old(State())
      ensures sent <==> due && peerId != 0
    {
      if !due || peerId == 0 {
        return false;
      }
      commandSeq := commandSeq + 1;
      return true;
    }

    method AdvanceFrame(dt: real)
      requires prediction.smoothCorrection.duration > 0.0
      modifies this, prediction
      ensures State() == Framed(old(State()), dt)
    {
      hide Advanced;
      if settings.predictionEnabled && hasSnapshot {
        prediction.AdvanceDisplay(dt);
        localPlayerState := prediction.displayState;
      }
    }

    method PreviewSetting(control: Control)
      modifies this
      ensures State() == Previewed(old(State()), control)
    {
      if peerId == 0 {
        return;
      }
      match control
      case Interpolation(enabled) =>
        settings := settings.(interpolationEnabled := enabled);
      case Prediction(enabled) =>
        var wasEnabled := settings.predictionEnabled;
        settings := settings.(predictionEnabled := enabled);
        if wasEnabled != enabled && hasSnapshot {
          localPlayerState := if enabled then prediction.displayState else latestState;
        }
      case Reconciliation(strategy) =>
        settings := settings.(strategy := strategy);
      case SmoothWindow(windowMs) =>
        settings := settings.(smoothWindowMs := if windowMs < 0 then 0 else if windowMs > 1000 then 1000 else windowMs);
    }
  }
}
