/** Prediction for several local participants: one buffer each, found by id, made when first needed. */
module PredictionMap {
  import opened Prediction
  import opened Words
  import Laws = PredictionLaws

  datatype Participant = Participant(
    participantId: U16, buffer: Buffer, lastAckedInputSeq: nat, correctionHistory: seq<Reconciliation>)

  type Participants = seq<Participant>

  // ---------------------------------------------------------------------------------------------
  // The specification

  function NewParticipant(id: U16): Participant {
    Participant(id, FRESH, 0, [])
  }

  /** The index of the first participant with the id; the count when there is none. */
  function IndexOf(ps: Participants, id: U16): (i: nat)
    ensures i <= |ps|
    ensures i < |ps| ==> ps[i].participantId == id
    ensures forall j :: 0 <= j < i ==> ps[j].participantId != id
  {
    if ps == [] then 0
    else if ps[0].participantId == id then 0
    else 1 + IndexOf(ps[1..], id)
  }

  function Ensured(ps: Participants, id: U16): (r: Participants)
    ensures IndexOf(r, id) < |r|
  {
    if IndexOf(ps, id) < |ps| then ps
    else
      var r := ps + [NewParticipant(id)];
      assert r[|ps|].participantId == id;
      r
  }

  function WithReset(p: Participant, state: Player): Participant {
    p.(buffer := ResetTo(state), lastAckedInputSeq := 0, correctionHistory := [])
  }

  function WithCommand(p: Participant, sim: Simulator, command: Command, arena: Arena): Participant {
    p.(buffer := Recorded(p.buffer, sim, command, arena))
  }

  function WithReconciliation(
    p: Participant, sim: Simulator, authoritative: Player, ack: nat, arena: Arena, strategy: Strategy, windowMs: U32
  ): Participant
  {
    p.(buffer := Reconciled(p.buffer, sim, authoritative, ack, arena, strategy, windowMs),
       lastAckedInputSeq := ack,
       correctionHistory := p.correctionHistory + [ReconcileResult(p.buffer, sim, authoritative, ack, arena, strategy)])
  }

  // ---------------------------------------------------------------------------------------------
  // The code

  class PredictionBufferMap {
    const sim: Simulator
    var participants: Participants

    constructor (sim: Simulator)
      ensures this.sim == sim && participants == []
    {
      this.sim, participants := sim, [];
    }

    method Clear()
      modifies this
      ensures participants == []
    {
      participants := [];
    }

    method Find(id: U16) returns (i: nat)
      ensures i == IndexOf(participants, id)
    {
      i := 0;
      while i < |participants| && participants[i].participantId != id
        invariant i <= |participants|
        invariant forall j :: 0 <= j < i ==> participants[j].participantId != id
      {
        i := i + 1;
      }
    }

    method Ensure(id: U16) returns (i: nat)
      modifies this
      ensures participants == Ensured(old(participants), id) && i == IndexOf(participants, id)
    {
      i := Find(id);
      if i == |participants| {
        participants := participants + [NewParticipant(id)];
      }
    }

    method ResetParticipant(id: U16, state: Player)
      modifies this
      ensures var ps := Ensured(old(participants), id);
        participants == ps[IndexOf(ps, id) := WithReset(ps[IndexOf(ps, id)], state)]
    {
      var i := Ensure(id);
      participants := participants[i := WithReset(participants[i], state)];
    }

    method RecordCommand(id: U16, command: Command, arena: Arena)
      modifies this
      ensures var ps := Ensured(old(participants), id);
        participants == ps[IndexOf(ps, id) := WithCommand(ps[IndexOf(ps, id)], sim, command, arena)]
    {
      var i := Ensure(id);
      participants := participants[i := WithCommand(participants[i], sim, command, arena)];
    }

    method Reconcile(id: U16, authoritative: Player, ack: nat, arena: Arena, strategy: Strategy, smoothWindowMs: U32)
      returns (result: Reconciliation)
      modifies this
      ensures var ps := Ensured(old(participants), id);
        var p := ps[IndexOf(ps, id)];
        participants
          == ps[IndexOf(ps, id) := WithReconciliation(p, sim, authoritative, ack, arena, strategy, smoothWindowMs)]
        && result == ReconcileResult(p.buffer, sim, authoritative, ack, arena, strategy)
    {
      var i := Ensure(id);
      var p := participants[i].(lastAckedInputSeq := ack);
      result := ReconcileResult(p.buffer, sim, authoritative, ack, arena, strategy);
      p := p.(buffer := Reconciled(p.buffer, sim, authoritative, ack, arena, strategy, smoothWindowMs));
      p := p.(correctionHistory := p.correctionHistory + [result]);
      participants := participants[i := p];
    }

    /** What the getters read: the participant of the id, or a new one's values when there is none. */
    method Look(id: U16) returns (found: bool, p: Participant)
      ensures found <==> exists q :: q in participants && q.participantId == id
      ensures p == Lookup(participants, id)
    {
      var i := Find(id);
      found := i < |participants|;
      p := if found then participants[i] else NewParticipant(id);
    }
  }

  function Lookup(ps: Participants, id: U16): Participant {
    var i := IndexOf(ps, id);
    if i < |ps| then ps[i] else NewParticipant(id)
  }

  // ---------------------------------------------------------------------------------------------
  // Runs

  type BufferOp = e: Laws.Event | !e.DidAdvance? witness Laws.WasReset(EMPTY_PLAYER)

  datatype Event = Cleared | For(participantId: U16, op: BufferOp)

  function Updated(p: Participant, sim: Simulator, op: BufferOp): (r: Participant)
    ensures r.participantId == p.participantId
  {
    match op
    case WasReset(state) => WithReset(p, state)
    case DidRecord(command, arena) => WithCommand(p, sim, command, arena)
    case DidReconcile(authoritative, ack, arena, strategy, windowMs) =>
      WithReconciliation(p, sim, authoritative, ack, arena, strategy, windowMs)
  }

  function Step(ps: Participants, sim: Simulator, e: Event): Participants {
    match e
    case Cleared => []
    case For(id, op) =>
      var qs := Ensured(ps, id);
      qs[IndexOf(qs, id) := Updated(qs[IndexOf(qs, id)], sim, op)]
  }

  function Run(sim: Simulator, events: seq<Event>): Participants {
    if events == [] then [] else Step(Run(sim, events[..|events| - 1]), sim, events[|events| - 1])
  }

  ghost predicate UniqueIds(ps: Participants) {
    forall i, j :: 0 <= i < j < |ps| ==> ps[i].participantId != ps[j].participantId
  }

  // ---------------------------------------------------------------------------------------------
  // A buffer of one's own

  /** The operations of one participant since the last clear. */
  function OpsOf(events: seq<Event>, id: U16): seq<BufferOp> {
    if events == [] then []
    else
      match events[|events| - 1]
      case Cleared => []
      case For(other, op) =>
        if other == id then OpsOf(events[..|events| - 1], id) + [op] else OpsOf(events[..|events| - 1], id)
  }

  /** The acknowledgement the participant saw last, since its last reset. */
  function AckSeen(ops: seq<BufferOp>): nat {
    if ops == [] then 0
    else
      match ops[|ops| - 1]
      case WasReset(_) => 0
      case DidReconcile(_, ack, _, _, _) => ack
      case DidRecord(_, _) => AckSeen(ops[..|ops| - 1])
  }

  /** The corrections a lone buffer reports, since its last reset. */
  function Corrections(sim: Simulator, ops: seq<BufferOp>): seq<Reconciliation> {
    if ops == [] then []
    else
      var init := ops[..|ops| - 1];
      match ops[|ops| - 1]
      case WasReset(_) => []
      case DidReconcile(authoritative, ack, arena, strategy, _) =>
        Corrections(sim, init) + [ReconcileResult(Laws.Run(sim, init), sim, authoritative, ack, arena, strategy)]
      case DidRecord(_, _) => Corrections(sim, init)
  }

  /** The participant a buffer of one's own would make. */
  function Lone(sim: Simulator, ops: seq<BufferOp>, id: U16): Participant {
    Participant(id, Laws.Run(sim, ops), AckSeen(ops), Corrections(sim, ops))
  }

  lemma LoneStep(sim: Simulator, ops: seq<BufferOp>, id: U16, op: BufferOp)
    ensures Lone(sim, ops + [op], id) == Updated(Lone(sim, ops, id), sim, op)
  {
    assert (ops + [op])[..|ops|] == ops;
  }

  lemma StepKeepsUnique(ps: Participants, sim: Simulator, e: Event)
    requires UniqueIds(ps)
    ensures UniqueIds(Step(ps, sim, e))
  {
    hide Updated, IndexOf;
  }

  lemma StepOnlyTouches(ps: Participants, sim: Simulator, e: Event, id: U16)
    requires UniqueIds(ps)
    ensures e.For? && e.participantId == id ==> Lookup(Step(ps, sim, e), id) == Updated(Lookup(ps, id), sim, e.op)
    ensures e.For? && e.participantId != id ==> Lookup(Step(ps, sim, e), id) == Lookup(ps, id)
    ensures e.For? ==> (IndexOf(Step(ps, sim, e), id) < |Step(ps, sim, e)|
                        <==> e.participantId == id || IndexOf(ps, id) < |ps|)
  {
    hide Updated, IndexOf;
    if e.For? {
      var qs, after := Ensured(ps, e.participantId), Step(ps, sim, e);
      assert forall k :: 0 <= k < |qs| ==> after[k].participantId == qs[k].participantId;
      var i := IndexOf(qs, e.participantId);
      var j := IndexOf(after, id);
      if e.participantId == id {
        assert after[i].participantId == id;
      }
      assert forall k :: 0 <= k < |ps| ==> qs[k] == ps[k];
      if IndexOf(ps, id) < |ps| {
        assert after[IndexOf(ps, id)].participantId == id;
      }
    }
  }

  /**
   In every interleaved run the ids stay unique, and a participant is there exactly when it was used since the
   last clear; its buffer, acknowledgement and corrections are those of a buffer of its own, driven by its own
   operations only.
   */
  lemma {:induction false} ParticipantsIndependent(sim: Simulator, events: seq<Event>, id: U16)
    ensures var ps := Run(sim, events);
      UniqueIds(ps)
      && (IndexOf(ps, id) < |ps| <==> OpsOf(events, id) != [])
      && Lookup(ps, id) == Lone(sim, OpsOf(events, id), id)
  {
    hide Lone, Updated, IndexOf, Lookup, Step;
    if events == [] {
      NothingYet(sim, id);
    } else {
      var init, e := events[..|events| - 1], events[|events| - 1];
      ParticipantsIndependent(sim, init, id);
      StepKeepsUnique(Run(sim, init), sim, e);
      StepOnlyTouches(Run(sim, init), sim, e, id);
      match e
      case Cleared => NothingYet(sim, id); AfterClear(Run(sim, init), sim);
      case For(other, op) =>
        if other == id {
          LoneStep(sim, OpsOf(init, id), id, op);
        }
    }
  }

  lemma NothingYet(sim: Simulator, id: U16)
    ensures Lookup([], id) == Lone(sim, [], id) && IndexOf([], id) == 0
  {
  }

  lemma AfterClear(ps: Participants, sim: Simulator)
    ensures Step(ps, sim, Cleared) == []
  {
  }
}
