/** Whole client sessions: any delivery of the server's snapshots keeps the prediction buffer's discipline. */
module ClientGateLaws {
  import opened ClientGate
  import opened Geometry
  import opened Prediction
  import opened Words
  import Laws = PredictionLaws

  /** An arriving snapshot carries the number the server counted for it; only its low 32 bits are on the wire. */
  datatype Event =
    | Arrived(number: nat, peerId: U16, snapshot: Snapshot, arena: Arena, entry: Announcement)
    | Typed(input: Command, arena: Arena)
    | Frame(dt: real)
    | Set(control: Control)
    | Idle

  function PacketOf(e: Event): Packet
    requires e.Arrived?
  {
    Packet(e.number % 0x1_0000_0000, e.peerId, e.snapshot)
  }

  function Step(c: Client, sim: Simulator, e: Event): (r: Client)
    requires c.buffer.smoothing.duration > 0.0
    ensures r.buffer.smoothing.duration > 0.0
  {
    match e
    case Arrived(_, _, _, arena, entry) => Received(c, sim, PacketOf(e), arena, entry)
    case Typed(input, arena) => Commanded(c, sim, input, arena)
    case Frame(dt) => Framed(c, dt)
    case Set(control) => Previewed(c, control)
    case Idle => Idled(c)
  }

  function Run(sim: Simulator, events: seq<Event>): (c: Client)
    ensures c.buffer.smoothing.duration > 0.0
  {
    if events == [] then STARTED
    else Step(Run(sim, events[..|events| - 1]), sim, events[|events| - 1])
  }

  // ---------------------------------------------------------------------------------------------
  // The gate

  lemma DifferenceModulo(n: nat, m: nat, d: int)
    requires n == m + d
    ensures (n % 0x1_0000_0000 - m % 0x1_0000_0000) % 0x1_0000_0000 == d % 0x1_0000_0000
  {
    var q := n / 0x1_0000_0000 - m / 0x1_0000_0000;
    assert n % 0x1_0000_0000 - m % 0x1_0000_0000 == d - 0x1_0000_0000 * q;
  }

  /** On the wire numbers the comparison is right as long as the counts are less than half the range apart. */
  lemma NewerMeansLater(n: nat, m: nat)
    requires -0x8000_0000 < n - m < 0x8000_0000
    ensures IsNewerSequence(n % 0x1_0000_0000, m % 0x1_0000_0000) <==> n > m
  {
    DifferenceModulo(n, m, n - m);
  }

  /** The number of the newest accepted snapshot. */
  function LastNumber(sim: Simulator, events: seq<Event>): nat {
    if events == [] then 0
    else
      var init, e := events[..|events| - 1], events[|events| - 1];
      if e.Arrived? && Accepts(Run(sim, init), PacketOf(e)) then e.number else LastNumber(sim, init)
  }

  /** No arriving snapshot is half the number range or more from the newest accepted one. */
  ghost predicate WithinWindow(sim: Simulator, events: seq<Event>) {
    events == []
    || (WithinWindow(sim, events[..|events| - 1])
        && (events[|events| - 1].Arrived? && Run(sim, events[..|events| - 1]).hasSnapshot ==>
              -0x8000_0000 < events[|events| - 1].number - LastNumber(sim, events[..|events| - 1]) < 0x8000_0000))
  }

  /** Later numbered snapshots never acknowledge less. */
  ghost predicate AcksFollowNumbers(events: seq<Event>) {
    forall i, j :: 0 <= i < |events| && 0 <= j < |events| && events[i].Arrived? && events[j].Arrived?
                   && events[i].number <= events[j].number ==>
      events[i].snapshot.ackedInputSeq <= events[j].snapshot.ackedInputSeq
  }

  /** Only commands the client has numbered are acknowledged. */
  ghost predicate AcksIssued(sim: Simulator, events: seq<Event>) {
    events == []
    || (AcksIssued(sim, events[..|events| - 1])
        && (events[|events| - 1].Arrived? ==>
              events[|events| - 1].snapshot.ackedInputSeq <= Run(sim, events[..|events| - 1]).commandSeq))
  }

  /** The server's snapshots in any order, with any losses and repetitions. */
  ghost predicate Session(sim: Simulator, events: seq<Event>) {
    WithinWindow(sim, events) && AcksFollowNumbers(events) && AcksIssued(sim, events)
  }

  lemma SessionInit(sim: Simulator, events: seq<Event>)
    requires events != [] && Session(sim, events)
    ensures Session(sim, events[..|events| - 1])
  {
    hide Run, LastNumber;
  }

  /** The gate remembers the low bits of `number`, the number of a snapshot that arrived. */
  ghost predicate Remembers(c: Client, events: seq<Event>, number: nat) {
    c.hasSnapshot ==>
      c.lastSnapshotSeq == number % 0x1_0000_0000
      && exists e :: e in events && e.Arrived? && e.number == number && e.snapshot.ackedInputSeq == c.lastAckedInputSeq
  }

  lemma StepRemembers(c: Client, sim: Simulator, events: seq<Event>, e: Event, number: nat)
    requires c.buffer.smoothing.duration > 0.0 && Remembers(c, events, number)
    ensures Remembers(Step(c, sim, e), events + [e],
                      if e.Arrived? && Accepts(c, PacketOf(e)) then e.number else number)
  {
    hide Reconciled, Recorded, Advanced, Accepts;
    assert e in events + [e] && forall x :: x in events ==> x in events + [e];
  }

  /**
   The gate remembers the low bits of the newest accepted number, and that snapshot is one that arrived, with the
   acknowledgement the client holds.
   */
  lemma {:induction false} GateRemembers(sim: Simulator, events: seq<Event>)
    ensures Remembers(Run(sim, events), events, LastNumber(sim, events))
  {
    hide Step, Accepts;
    if events != [] {
      var init, e := events[..|events| - 1], events[|events| - 1];
      GateRemembers(sim, init);
      hide Remembers;
      StepRemembers(Run(sim, init), sim, init, e, LastNumber(sim, init));
      assert events == init + [e];
    }
  }

  /** An accepted snapshot is numbered later than every one accepted before it, and acknowledges no less. */
  lemma AcceptedIsLater(sim: Simulator, events: seq<Event>)
    requires events != [] && events[|events| - 1].Arrived? && Session(sim, events)
    requires Run(sim, events[..|events| - 1]).hasSnapshot
    ensures var init, e := events[..|events| - 1], events[|events| - 1];
      var c := Run(sim, init);
      Accepts(c, PacketOf(e)) <==> (c.peerId == 0 || e.peerId == c.peerId) && e.number > LastNumber(sim, init)
    ensures var init, e := events[..|events| - 1], events[|events| - 1];
      Accepts(Run(sim, init), PacketOf(e)) ==> e.snapshot.ackedInputSeq >= Run(sim, init).lastAckedInputSeq
  {
    hide Run, LastNumber;
    var init, e := events[..|events| - 1], events[|events| - 1];
    SessionInit(sim, events);
    GateRemembers(sim, init);
    NewerMeansLater(e.number, LastNumber(sim, init));
    if Accepts(Run(sim, init), PacketOf(e)) {
      var x :| x in init && x.Arrived? && x.number == LastNumber(sim, init)
               && x.snapshot.ackedInputSeq == Run(sim, init).lastAckedInputSeq;
      var i :| 0 <= i < |init| && init[i] == x;
      assert events[i] == x && events[|events| - 1] == e;
    }
  }

  // ---------------------------------------------------------------------------------------------
  // What the buffer is fed

  function FedBy(c: Client, e: Event): seq<Laws.Event> {
    match e
    case Arrived(_, _, s, arena, _) =>
      if !Accepts(c, PacketOf(e)) then []
      else [Laws.DidReconcile(s.localPlayerState, s.ackedInputSeq, arena, c.settings.strategy,
          c.settings.smoothWindowMs)]
           + if !(s.localPlayerState.health > 0.0) || !(c.localPlayer.health > 0.0) || c.respawnPending
             then [Laws.WasReset(s.localPlayerState)] else []
    case Typed(input, arena) =>
      if c.settings.predictionEnabled then [Laws.DidRecord(input.(seqNo := c.commandSeq + 1), arena)] else []
    case Frame(dt) => if c.settings.predictionEnabled && c.hasSnapshot then [Laws.DidAdvance(dt)] else []
    case Set(_) => []
    case Idle => []
  }

  function Fed(sim: Simulator, events: seq<Event>): seq<Laws.Event> {
    if events == [] then []
    else Fed(sim, events[..|events| - 1]) + FedBy(Run(sim, events[..|events| - 1]), events[|events| - 1])
  }

  lemma RunOne(sim: Simulator, done: seq<Laws.Event>, x: Laws.Event)
    ensures Laws.Run(sim, done + [x]) == Laws.Step(Laws.Run(sim, done), sim, x)
  {
    assert (done + [x])[..|done|] == done;
  }

  lemma RunTwo(sim: Simulator, done: seq<Laws.Event>, x: Laws.Event, y: Laws.Event)
    ensures Laws.Run(sim, done + [x, y]) == Laws.Step(Laws.Step(Laws.Run(sim, done), sim, x), sim, y)
  {
    hide Laws.Run, Laws.Step;
    RunOne(sim, done, x);
    RunOne(sim, done + [x], y);
    assert done + [x] + [y] == done + [x, y];
  }

  /** One event does to the buffer what it is fed. */
  lemma StepFeeds(c: Client, sim: Simulator, e: Event, done: seq<Laws.Event>)
    requires c.buffer == Laws.Run(sim, done)
    ensures Step(c, sim, e).buffer == Laws.Run(sim, done + FedBy(c, e))
  {
    hide Reconciled, Recorded, Advanced, Accepts, Laws.Run;
    var fed := FedBy(c, e);
    match e
    case Arrived(_, _, _, _, _) =>
      if Accepts(c, PacketOf(e)) {
        if |fed| == 1 {
          assert fed == [fed[0]];
          RunOne(sim, done, fed[0]);
        } else {
          assert fed == [fed[0], fed[1]];
          RunTwo(sim, done, fed[0], fed[1]);
        }
      } else {
        assert done + fed == done;
      }
    case Typed(_, _) => FedAtMostOne(sim, done, fed);
    case Frame(_) => FedAtMostOne(sim, done, fed);
    case Set(_) => assert done + fed == done;
    case Idle => assert done + fed == done;
  }

  lemma FedAtMostOne(sim: Simulator, done: seq<Laws.Event>, fed: seq<Laws.Event>)
    requires |fed| <= 1
    ensures Laws.Run(sim, done + fed)
         == if fed == [] then Laws.Run(sim, done) else Laws.Step(Laws.Run(sim, done), sim, fed[0])
  {
    if fed == [] {
      assert done + fed == done;
    } else {
      assert fed == [fed[0]];
      RunOne(sim, done, fed[0]);
    }
  }

  lemma {:induction false} BufferIsFed(sim: Simulator, events: seq<Event>)
    ensures Run(sim, events).buffer == Laws.Run(sim, Fed(sim, events))
  {
    hide Step, FedBy;
    if events == [] {
      assert Laws.Run(sim, []) == FRESH;
    } else {
      var init := events[..|events| - 1];
      BufferIsFed(sim, init);
      StepFeeds(Run(sim, init), sim, events[|events| - 1], Fed(sim, init));
    }
  }

  lemma DisciplineOne(done: seq<Laws.Event>, x: Laws.Event)
    requires Laws.Disciplined(done)
    requires x.DidRecord? ==> x.command.seqNo > Laws.LastRecorded(done) && x.command.seqNo > Laws.LastAck(done)
    requires x.DidReconcile? ==> x.ack >= Laws.LastAck(done)
    ensures Laws.Disciplined(done + [x])
    ensures Laws.LastAck(done + [x]) == if x.DidReconcile? then x.ack else Laws.LastAck(done)
    ensures Laws.LastRecorded(done + [x]) == if x.DidRecord? then x.command.seqNo else Laws.LastRecorded(done)
  {
    assert (done + [x])[..|done|] == done;
  }

  /** The discipline so far, and that nothing acknowledged or recorded is numbered above the client's count. */
  ghost predicate InStep(c: Client, fed: seq<Laws.Event>) {
    Laws.Disciplined(fed)
    && Laws.LastAck(fed) == c.lastAckedInputSeq <= c.commandSeq
    && Laws.LastRecorded(fed) <= c.commandSeq
    && (!c.hasSnapshot ==> c.lastAckedInputSeq == 0)
  }

  lemma StepInStep(c: Client, sim: Simulator, e: Event, done: seq<Laws.Event>)
    requires c.buffer.smoothing.duration > 0.0 && InStep(c, done)
    requires e.Arrived? && Accepts(c, PacketOf(e)) ==>
               c.lastAckedInputSeq <= e.snapshot.ackedInputSeq <= c.commandSeq
    ensures InStep(Step(c, sim, e), done + FedBy(c, e))
  {
    hide Reconciled, Recorded, Advanced, Accepts, Laws.Disciplined, Laws.LastAck, Laws.LastRecorded;
    var fed := FedBy(c, e);
    if fed == [] {
      assert done + fed == done;
    } else {
      DisciplineOne(done, fed[0]);
      if |fed| == 1 {
        assert done + fed == done + [fed[0]];
      } else {
        DisciplineOne(done + [fed[0]], fed[1]);
        assert done + fed == done + [fed[0]] + [fed[1]];
      }
    }
  }

  /** In every session the buffer is used in discipline: numbers increase, acknowledgements do not decrease. */
  lemma {:induction false} SessionDisciplined(sim: Simulator, events: seq<Event>)
    requires Session(sim, events)
    ensures InStep(Run(sim, events), Fed(sim, events))
  {
    hide Step, FedBy, InStep, Accepts, LastNumber;
    if events == [] {
      NothingDisciplined();
    } else {
      var init, e := events[..|events| - 1], events[|events| - 1];
      SessionInit(sim, events);
      SessionDisciplined(sim, init);
      if e.Arrived? && Run(sim, init).hasSnapshot {
        AcceptedIsLater(sim, events);
      }
      BeforeFirst(Run(sim, init), Fed(sim, init));
      StepInStep(Run(sim, init), sim, e, Fed(sim, init));
    }
  }

  lemma BeforeFirst(c: Client, fed: seq<Laws.Event>)
    requires InStep(c, fed)
    ensures !c.hasSnapshot ==> c.lastAckedInputSeq == 0
  {
  }

  lemma NothingDisciplined()
    ensures InStep(STARTED, [])
  {
  }

  // ---------------------------------------------------------------------------------------------
  // The session theorems

  /**
   However snapshots are lost, repeated or overtaken: the client's prediction is the replay, from the last
   authoritative state it took over, of exactly the recorded commands the newest accepted snapshot has not
   acknowledged.
   */
  lemma SessionPredicts(sim: Simulator, events: seq<Event>, arena: Arena)
    requires Session(sim, events) && Laws.ArenaSinceBase(Fed(sim, events), arena)
    ensures var c, fed := Run(sim, events), Fed(sim, events);
      c.buffer.pending == Unacked(Laws.Issued(fed), c.lastAckedInputSeq)
      && c.buffer.predicted == Replay(sim, Laws.Base(fed), c.buffer.pending, arena)
  {
    hide Run, Fed;
    SessionDisciplined(sim, events);
    BufferIsFed(sim, events);
    assert InStep(Run(sim, events), Fed(sim, events));
    Laws.PendingIsUnacked(sim, Fed(sim, events));
    Laws.PredictedIsReplay(sim, Fed(sim, events), arena);
  }

  /** What the client shows: the display of its buffer while predicting, the newest snapshot otherwise. */
  ghost predicate ShowsRight(c: Client) {
    if c.settings.predictionEnabled || !c.hasSnapshot then c.localPlayer == c.buffer.display
    else c.localPlayer == c.latestState
  }

  lemma {:induction false} SessionShows(sim: Simulator, events: seq<Event>)
    ensures ShowsRight(Run(sim, events))
  {
    hide ShowsRight, Step;
    if events == [] {
      StartShowsRight();
    } else {
      SessionShows(sim, events[..|events| - 1]);
      StepShowsRight(Run(sim, events[..|events| - 1]), sim, events[|events| - 1]);
    }
  }

  lemma StartShowsRight()
    ensures ShowsRight(STARTED)
  {
  }

  lemma StepShowsRight(c: Client, sim: Simulator, e: Event)
    requires c.buffer.smoothing.duration > 0.0 && ShowsRight(c)
    ensures ShowsRight(Step(c, sim, e))
  {
    hide Reconciled, Recorded, Advanced, Accepts;
  }

  /** While predicting, the player is never shown further than the smoothing threshold from the prediction. */
  lemma ShownNearPrediction(sim: Simulator, events: seq<Event>)
    requires Run(sim, events).settings.predictionEnabled
    ensures var c := Run(sim, events);
      !Beyond(DistanceSquared(c.localPlayer.position, c.buffer.predicted.position), SMOOTHING_THRESHOLD)
  {
    hide Run, Fed;
    SessionShows(sim, events);
    BufferIsFed(sim, events);
    Laws.DisplayNearPrediction(sim, Fed(sim, events));
  }

  lemma RunSnoc(sim: Simulator, events: seq<Event>, e: Event)
    ensures Run(sim, events + [e]) == Step(Run(sim, events), sim, e)
  {
    hide Step;
    assert (events + [e])[..|events|] == events;
  }

  /**
   A setting the client changed holds, whatever the snapshots announce meanwhile, until one of them announces that
   very change.
   */
  lemma {:induction false} OverrideHolds(sim: Simulator, events: seq<Event>, rest: seq<Event>)
    requires Overridden(Run(sim, events))
    requires forall e :: e in rest ==>
               !e.Set? && (e.Arrived? ==> e.entry != Announced(Run(sim, events).settings))
    ensures Overridden(Run(sim, events + rest)) && Run(sim, events + rest).settings == Run(sim, events).settings
  {
    hide Run, Step, Overridden;
    if rest == [] {
      assert events + rest == events;
    } else {
      var init, e := rest[..|rest| - 1], rest[|rest| - 1];
      assert rest == init + [e] && forall x :: x in init ==> x in rest;
      OverrideHolds(sim, events, init);
      assert events + rest == events + init + [e];
      RunSnoc(sim, events + init, e);
      OverrideHoldsOnce(Run(sim, events + init), sim, e);
    }
  }

  lemma OverrideHoldsOnce(c: Client, sim: Simulator, e: Event)
    requires c.buffer.smoothing.duration > 0.0 && Overridden(c)
    requires !e.Set? && (e.Arrived? ==> e.entry != Announced(c.settings))
    ensures Overridden(Step(c, sim, e)) && Step(c, sim, e).settings == c.settings
  {
    hide Reconciled, Recorded, Advanced, Accepts;
  }

  /** A snapshot of a dead player, or the first of the respawned one, is taken over as it is, with nothing pending. */
  lemma DeathTakesOver(sim: Simulator, events: seq<Event>)
    requires events != [] && events[|events| - 1].Arrived?
    requires var c, e := Run(sim, events[..|events| - 1]), events[|events| - 1];
      Accepts(c, PacketOf(e))
      && (!(e.snapshot.localPlayerState.health > 0.0) || !(c.localPlayer.health > 0.0) || c.respawnPending)
    ensures var c, state := Run(sim, events), events[|events| - 1].snapshot.localPlayerState;
      c.localPlayer == state && c.buffer.predicted == state && c.buffer.display == state && c.buffer.pending == []
      && c.respawnPending == !(state.health > 0.0)
  {
    hide Reconciled, Recorded, Advanced;
  }

  // ---------------------------------------------------------------------------------------------
  // What the client holds of the server

  datatype Newest = NoneYet | NewestIs(event: Event)

  /** The newest accepted snapshot. */
  function NewestAccepted(sim: Simulator, events: seq<Event>): (n: Newest)
    ensures n.NewestIs? ==> n.event.Arrived? && n.event in events
  {
    if events == [] then NoneYet
    else
      var init, e := events[..|events| - 1], events[|events| - 1];
      if e.Arrived? && Accepts(Run(sim, init), PacketOf(e)) then NewestIs(e) else NewestAccepted(sim, init)
  }

  /** The client's peer id: that of the first accepted snapshot of a positive player, cut to 16 bits, for good. */
  function Identity(sim: Simulator, events: seq<Event>): int {
    if events == [] then 0
    else
      var init, e := events[..|events| - 1], events[|events| - 1];
      if Identity(sim, init) == 0 && e.Arrived? && Accepts(Run(sim, init), PacketOf(e))
         && e.snapshot.localPlayerState.playerId > 0 then e.snapshot.localPlayerState.playerId % 0x1_0000
      else Identity(sim, init)
  }

  /** The commands numbered so far: every input, and every idle command of a client that has a peer id. */
  function NumberedCommands(sim: Simulator, events: seq<Event>): nat {
    if events == [] then 0
    else
      var init, e := events[..|events| - 1], events[|events| - 1];
      NumberedCommands(sim, init) + if e.Typed? || (e.Idle? && Identity(sim, init) != 0) then 1 else 0
  }

  ghost predicate HoldsNewest(c: Client, n: Newest) {
    match n
    case NoneYet => !c.hasSnapshot
    case NewestIs(e) =>
      e.Arrived? && c.hasSnapshot && c.latestState == e.snapshot.localPlayerState
      && c.lastAckedInputSeq == e.snapshot.ackedInputSeq && c.lastSnapshotSeq == e.number % 0x1_0000_0000
  }

  /** In every session the client holds state, acknowledgement and number of the newest accepted snapshot. */
  lemma {:induction false} SessionHoldsNewest(sim: Simulator, events: seq<Event>)
    ensures HoldsNewest(Run(sim, events), NewestAccepted(sim, events))
    ensures Run(sim, events).peerId == Identity(sim, events)
    ensures Run(sim, events).commandSeq == NumberedCommands(sim, events)
  {
    if events != [] {
      var init, e := events[..|events| - 1], events[|events| - 1];
      SessionHoldsNewest(sim, init);
      hide Run;
      StepHolds(Run(sim, init), sim, e, NewestAccepted(sim, init));
      RunLast(sim, events);
    }
  }

  lemma RunLast(sim: Simulator, events: seq<Event>)
    requires events != []
    ensures Run(sim, events) == Step(Run(sim, events[..|events| - 1]), sim, events[|events| - 1])
  {
    hide Step;
  }

  lemma StepHolds(c: Client, sim: Simulator, e: Event, n: Newest)
    requires c.buffer.smoothing.duration > 0.0 && HoldsNewest(c, n)
    ensures var r := Step(c, sim, e);
      HoldsNewest(r, if e.Arrived? && Accepts(c, PacketOf(e)) then NewestIs(e) else n)
      && r.peerId == (if c.peerId == 0 && e.Arrived? && Accepts(c, PacketOf(e))
                         && e.snapshot.localPlayerState.playerId > 0
                      then e.snapshot.localPlayerState.playerId % 0x1_0000 else c.peerId)
      && r.commandSeq == c.commandSeq + if e.Typed? || (e.Idle? && c.peerId != 0) then 1 else 0
  {
    hide Reconciled, Recorded, Advanced, Accepts;
  }

  /** Before the first snapshot any of the client's own, or of any client while it has no peer id, is accepted. */
  lemma FirstAccepted(sim: Simulator, events: seq<Event>, e: Event)
    requires e.Arrived? && NewestAccepted(sim, events).NoneYet?
    ensures Accepts(Run(sim, events), PacketOf(e)) <==> Identity(sim, events) == 0 || e.peerId == Identity(sim, events)
  {
    hide Run;
    SessionHoldsNewest(sim, events);
  }

  /** The settings last announced to a client that knows its peer id, or the defaults. */
  function AnnouncedSettings(sim: Simulator, events: seq<Event>): Settings {
    if events == [] then DEFAULT_SETTINGS
    else
      var init, e := events[..|events| - 1], events[|events| - 1];
      if e.Arrived? && Accepts(Run(sim, init), PacketOf(e)) && e.entry.Announced? && Identity(sim, events) != 0
      then e.entry.settings else AnnouncedSettings(sim, init)
  }

  /** With nothing changed by the client, the settings in force are the last announced ones. */
  lemma {:induction false} AnnouncedInForce(sim: Simulator, events: seq<Event>)
    requires forall e :: e in events ==> !e.Set?
    ensures !Overridden(Run(sim, events)) && Run(sim, events).settings == AnnouncedSettings(sim, events)
  {
    if events != [] {
      var init, e := events[..|events| - 1], events[|events| - 1];
      assert e in events && forall x :: x in init ==> x in events;
      AnnouncedInForce(sim, init);
      SessionHoldsNewest(sim, init);
      SessionHoldsNewest(sim, events);
      RunLast(sim, events);
      hide Run, Identity;
      StepAnnounces(Run(sim, init), sim, e);
    }
  }

  lemma StepAnnounces(c: Client, sim: Simulator, e: Event)
    requires c.buffer.smoothing.duration > 0.0 && !Overridden(c) && !e.Set?
    ensures var r := Step(c, sim, e);
      !Overridden(r)
      && r.settings == if e.Arrived? && Accepts(c, PacketOf(e)) && e.entry.Announced? && r.peerId != 0
                       then e.entry.settings else c.settings
  {
    hide Reconciled, Recorded, Advanced, Accepts;
  }

  /** `after` is `before` but for the one setting, which is as it was set, the window kept to 0..1000 milliseconds. */
  predicate TookOver(before: Settings, after: Settings, control: Control) {
    match control
    case Interpolation(enabled) => after == before.(interpolationEnabled := enabled)
    case Prediction(enabled) => after == before.(predictionEnabled := enabled)
    case Reconciliation(strategy) => after == before.(strategy := strategy)
    case SmoothWindow(ms) =>
      after.(smoothWindowMs := before.smoothWindowMs) == before && after.smoothWindowMs <= 1000
      && (0 <= ms <= 1000 ==> after.smoothWindowMs == ms)
      && (ms < 0 ==> after.smoothWindowMs == 0) && (ms > 1000 ==> after.smoothWindowMs == 1000)
  }

  /** A setting changed in the overlay of a client with a peer id takes effect, and no other changes. */
  lemma SettingTakes(sim: Simulator, events: seq<Event>, control: Control)
    requires Identity(sim, events) != 0
    ensures TookOver(Run(sim, events).settings, Run(sim, events + [Set(control)]).settings, control)
  {
    hide Run;
    SessionHoldsNewest(sim, events);
    RunSnoc(sim, events, Set(control));
  }
}
