/** The order and the time in which the proxy forwards. */
module ProxyOrder {
  import opened Proxy
  import opened ProxyLaws
  import opened Words

  // ---------------------------------------------------------------------------------------------
  // Sorted queues

  ghost predicate StrictlySorted(rs: seq<Relay>) {
    forall i, j :: 0 <= i < j < |rs| ==> Before(rs[i], rs[j])
  }

  ghost predicate DistinctOrders(rs: seq<Relay>) {
    forall i, j :: 0 <= i < j < |rs| ==> rs[i].order != rs[j].order
  }

  /** The queue's order numbers are distinct and were all given out. */
  ghost predicate Numbered(s: State) {
    DistinctOrders(s.scheduled) && forall r :: r in s.scheduled ==> r.order < s.orderCounter
  }

  lemma {:induction false} InsertedSorted(rs: seq<Relay>, r: Relay)
    requires StrictlySorted(rs) && forall x :: x in rs ==> x.order != r.order
    ensures StrictlySorted(Inserted(rs, r))
    ensures forall x :: x in Inserted(rs, r) <==> x in rs || x == r
  {
    if rs != [] {
      var init, last := rs[..|rs| - 1], rs[|rs| - 1];
      assert rs == init + [last];
      assert forall x :: x in init ==> Before(x, last);
      if Before(r, last) {
        InsertedSorted(init, r);
        assert forall x :: x in Inserted(init, r) ==> Before(x, last);
      } else {
        assert forall x :: x in rs ==> Before(x, r);
      }
    }
  }

  lemma {:induction false} SortedSorts(rs: seq<Relay>)
    requires DistinctOrders(rs)
    ensures StrictlySorted(Sorted(rs)) && forall x :: x in Sorted(rs) <==> x in rs
  {
    if rs != [] {
      var init, last := rs[..|rs| - 1], rs[|rs| - 1];
      SortedSorts(init);
      InsertedSorted(Sorted(init), last);
      assert rs == init + [last];
    }
  }

  lemma {:induction false} SplitSorted(rs: seq<Relay>, nowUs: nat, sendOk: nat -> bool)
    requires StrictlySorted(rs)
    ensures StrictlySorted(Going(rs, nowUs, sendOk)) && StrictlySorted(Staying(rs, nowUs, sendOk))
    ensures forall r :: r in Going(rs, nowUs, sendOk) <==> r in rs && Goes(r, nowUs, sendOk)
    ensures forall r :: r in Staying(rs, nowUs, sendOk) <==> r in rs && !Goes(r, nowUs, sendOk)
  {
    hide Before, Goes;
    if rs != [] {
      var init, last := rs[..|rs| - 1], rs[|rs| - 1];
      assert rs == init + [last];
      SplitSorted(init, nowUs, sendOk);
      assert forall r :: r in init ==> Before(r, last);
    }
  }

  // ---------------------------------------------------------------------------------------------
  // Arrivals only extend the queue

  /** `t` is `s` with more relays queued behind, numbered onwards and due no earlier than `nowUs`. */
  ghost predicate Extends(s: State, t: State, nowUs: nat) {
    |s.scheduled| <= |t.scheduled|
    && t.scheduled[..|s.scheduled|] == s.scheduled
    && t.orderCounter == s.orderCounter + (|t.scheduled| - |s.scheduled|)
    && forall i :: |s.scheduled| <= i < |t.scheduled| ==>
         t.scheduled[i].order == s.orderCounter + (i - |s.scheduled|) && t.scheduled[i].deliverAtUs >= nowUs
  }

  lemma ExtendsTrans(s: State, t: State, u: State, nowUs: nat)
    requires Extends(s, t, nowUs) && Extends(t, u, nowUs)
    ensures Extends(s, u, nowUs)
  {
    assert u.scheduled[..|s.scheduled|] == t.scheduled[..|s.scheduled|];
    forall i | |s.scheduled| <= i < |t.scheduled|
      ensures u.scheduled[i] == t.scheduled[i]
    {
      assert u.scheduled[..|t.scheduled|][i] == t.scheduled[i];
    }
  }

  lemma ExtendsNumbered(s: State, t: State, nowUs: nat)
    requires Numbered(s) && Extends(s, t, nowUs)
    ensures Numbered(t)
    ensures forall r :: r in t.scheduled ==> r in s.scheduled || (r.order >= s.orderCounter && r.deliverAtUs >= nowUs)
    ensures forall r :: r in s.scheduled ==> r in t.scheduled
  {
    var n := |s.scheduled|;
    assert forall i :: 0 <= i < n ==> t.scheduled[i] == s.scheduled[i] && t.scheduled[i] in s.scheduled;
  }

  lemma ScheduledExtends(s: State, key: LinkKey, destination: Endpoint, payload: seq<U8>, nowUs: nat, dice: Dice)
    ensures Extends(s, Scheduled(s, key, destination, payload, nowUs, dice), nowUs)
  {
    hide Decide, InFlight, InFlightOf, Plus, LinkOf;
  }

  lemma FromClientExtends(s: State, a: Arrival, nowUs: nat, server: Endpoint)
    ensures Extends(s, FromClient(s, a, nowUs, server), nowUs)
  {
    hide Scheduled;
    var d := a.datagram;
    var s1 := if d.message.Hello? then s.(sessionRoutes := s.sessionRoutes[d.message.sessionId := d.sender]) else s;
    var s2 := if d.peerId != 0 then s1.(peerRoutes := s1.peerRoutes[d.peerId := d.sender]) else s1;
    ScheduledExtends(s2, LinkKey(true, d.peerId), server, d.payload, nowUs, a.dice);
  }

  lemma FromServerExtends(s: State, a: Arrival, nowUs: nat)
    ensures Extends(s, FromServer(s, a, nowUs), nowUs)
  {
    hide Scheduled;
    var d := a.datagram;
    match d.message
    case Unparsed =>
    case Welcome(session, peer) =>
      if session in s.sessionRoutes {
        var route := s.sessionRoutes[session];
        ScheduledExtends(s.(peerRoutes := s.peerRoutes[peer := route]), LinkKey(false, peer), route, d.payload,
            nowUs, a.dice);
      }
    case _ =>
      if d.peerId in s.peerRoutes {
        ScheduledExtends(s, LinkKey(false, d.peerId), s.peerRoutes[d.peerId], d.payload, nowUs, a.dice);
      }
  }

  lemma {:induction false} ClientsExtend(s: State, arrivals: seq<Arrival>, nowUs: nat, server: Endpoint)
    ensures Extends(s, FromClients(s, arrivals, nowUs, server), nowUs)
  {
    hide FromClient;
    if arrivals != [] {
      hide Extends;
      var before := FromClients(s, arrivals[..|arrivals| - 1], nowUs, server);
      ClientsExtend(s, arrivals[..|arrivals| - 1], nowUs, server);
      FromClientExtends(before, arrivals[|arrivals| - 1], nowUs, server);
      ExtendsTrans(s, before, FromClients(s, arrivals, nowUs, server), nowUs);
    }
  }

  lemma {:induction false} ServersExtend(s: State, arrivals: seq<Arrival>, nowUs: nat)
    ensures Extends(s, FromServers(s, arrivals, nowUs), nowUs)
  {
    hide FromServer;
    if arrivals != [] {
      hide Extends;
      var before := FromServers(s, arrivals[..|arrivals| - 1], nowUs);
      ServersExtend(s, arrivals[..|arrivals| - 1], nowUs);
      FromServerExtends(before, arrivals[|arrivals| - 1], nowUs);
      ExtendsTrans(s, before, FromServers(s, arrivals, nowUs), nowUs);
    }
  }

  lemma ArrivedExtends(s: State, t: Tick, server: Endpoint)
    ensures Extends(s, Arrived(s, t, server), t.nowUs)
  {
    hide Extends, FromClients, FromServers;
    var clients := FromClients(s, t.fromClients, t.nowUs, server);
    ClientsExtend(s, t.fromClients, t.nowUs, server);
    ServersExtend(clients, t.fromServer, t.nowUs);
    ExtendsTrans(s, clients, Arrived(s, t, server), t.nowUs);
  }

  // ---------------------------------------------------------------------------------------------
  // One tick

  lemma CountedForwardQueue(s: State, rs: seq<Relay>)
    ensures CountedForward(s, rs).orderCounter == s.orderCounter
  {
    if rs != [] {
      CountedForwardQueue(s, rs[..|rs| - 1]);
    }
  }

  /**
   What a tick forwards and keeps: everything it forwards is due and in strictly increasing order of due time and
   arrival; everything else in the queue or newly arrived is kept.
   */
  lemma TickSplits(s: State, t: Tick, server: Endpoint)
    requires Numbered(s)
    ensures var arrived, after, going := Arrived(s, t, server), Ticked(s, t, server), ForwardedBy(s, t, server);
      Numbered(after) && StrictlySorted(going) && StrictlySorted(after.scheduled)
      && after.orderCounter == arrived.orderCounter >= s.orderCounter
      && (forall r :: r in going <==> r in arrived.scheduled && Goes(r, t.nowUs, t.sendOk))
      && (forall r :: r in after.scheduled <==> r in arrived.scheduled && !Goes(r, t.nowUs, t.sendOk))
  {
    hide Arrived, Sorted, Going, Staying, CountedForward, Goes, Before, InFlight, InFlightOf;
    var arrived := Arrived(s, t, server);
    ArrivedExtends(s, t, server);
    ExtendsNumbered(s, arrived, t.nowUs);
    SortedSorts(arrived.scheduled);
    SplitSorted(Sorted(arrived.scheduled), t.nowUs, t.sendOk);
    CountedForwardQueue(arrived, Going(Sorted(arrived.scheduled), t.nowUs, t.sendOk));
    SortedNumbers(arrived, t);
  }

  lemma SortedNumbers(arrived: State, t: Tick)
    requires Numbered(arrived)
    ensures DistinctOrders(Staying(Sorted(arrived.scheduled), t.nowUs, t.sendOk))
  {
    SortedDistinct(arrived.scheduled);
    StayingDistinct(Sorted(arrived.scheduled), t.nowUs, t.sendOk);
  }

  lemma {:induction false} InsertedDistinct(rs: seq<Relay>, r: Relay)
    requires DistinctOrders(rs) && forall x :: x in rs ==> x.order != r.order
    ensures DistinctOrders(Inserted(rs, r)) && forall x :: x in Inserted(rs, r) <==> x in rs || x == r
  {
    if rs != [] {
      var init, last := rs[..|rs| - 1], rs[|rs| - 1];
      assert rs == init + [last];
      assert forall x :: x in init ==> x.order != last.order;
      if Before(r, last) {
        InsertedDistinct(init, r);
        assert forall x :: x in Inserted(init, r) ==> x.order != last.order;
      }
    }
  }

  lemma {:induction false} SortedDistinct(rs: seq<Relay>)
    requires DistinctOrders(rs)
    ensures DistinctOrders(Sorted(rs)) && forall x :: x in Sorted(rs) <==> x in rs
  {
    if rs != [] {
      var init, last := rs[..|rs| - 1], rs[|rs| - 1];
      assert rs == init + [last];
      SortedDistinct(init);
      InsertedDistinct(Sorted(init), last);
    }
  }

  lemma {:induction false} StayingDistinct(rs: seq<Relay>, nowUs: nat, sendOk: nat -> bool)
    requires DistinctOrders(rs)
    ensures DistinctOrders(Staying(rs, nowUs, sendOk))
    ensures forall r :: r in Staying(rs, nowUs, sendOk) ==> r in rs
  {
    hide Goes;
    if rs != [] {
      var init, last := rs[..|rs| - 1], rs[|rs| - 1];
      assert rs == init + [last];
      assert forall x :: x in init ==> x.order != last.order;
      StayingDistinct(init, nowUs, sendOk);
    }
  }

  // ---------------------------------------------------------------------------------------------
  // The forwarded stream of a run

  lemma {:induction false} RunNumbered(setup: Setup, events: seq<Event>)
    ensures Numbered(Run(setup, events))
  {
    hide Ticked;
    if events != [] {
      var init := events[..|events| - 1];
      RunNumbered(setup, init);
      match events[|events| - 1]
      case Ticks(t) => TickSplits(Run(setup, init), t, setup.server);
      case _ =>
    }
  }

  /** In every run each tick forwards only what is due, in strictly increasing order of due time and arrival. */
  lemma EveryTickSorted(setup: Setup, events: seq<Event>, t: Tick)
    ensures var going := ForwardedBy(Run(setup, events), t, setup.server);
      StrictlySorted(going) && forall r :: r in going ==> r.deliverAtUs <= t.nowUs && t.sendOk(r.order)
  {
    hide Run, ForwardedBy, Ticked, Arrived, Before;
    RunNumbered(setup, events);
    TickSplits(Run(setup, events), t, setup.server);
  }

  /** Everything forwarded so far, in sending order. */
  function Stream(setup: Setup, events: seq<Event>): seq<Relay> {
    if events == [] then []
    else
      var init := events[..|events| - 1];
      match events[|events| - 1]
      case Ticks(t) => Stream(setup, init) + ForwardedBy(Run(setup, init), t, setup.server)
      case _ => Stream(setup, init)
  }

  /** The time of the newest tick. */
  function Clock(events: seq<Event>): nat {
    if events == [] then 0
    else
      match events[|events| - 1]
      case Ticks(t) => t.nowUs
      case _ => Clock(events[..|events| - 1])
  }

  /** The clock never runs backwards and every send succeeds. */
  ghost predicate Smooth(events: seq<Event>) {
    events == []
    || (Smooth(events[..|events| - 1])
        && match events[|events| - 1]
           case Ticks(t) => Clock(events[..|events| - 1]) <= t.nowUs && forall n :: t.sendOk(n)
           case _ => true)
  }

  /** The stream is sorted and due by now; what is queued is due later. */
  ghost predicate InOrder(s: State, stream: seq<Relay>, now: nat) {
    StrictlySorted(stream)
    && (forall r :: r in stream ==> r.deliverAtUs <= now && r.order < s.orderCounter)
    && (forall r :: r in s.scheduled ==> r.deliverAtUs > now)
  }

  lemma StreamStep(s: State, stream: seq<Relay>, now: nat, t: Tick, server: Endpoint)
    requires Numbered(s) && InOrder(s, stream, now) && now <= t.nowUs && forall n :: t.sendOk(n)
    ensures InOrder(Ticked(s, t, server), stream + ForwardedBy(s, t, server), t.nowUs)
  {
    hide Ticked, ForwardedBy, Arrived;
    var arrived, after, going := Arrived(s, t, server), Ticked(s, t, server), ForwardedBy(s, t, server);
    TickSplits(s, t, server);
    ArrivedExtends(s, t, server);
    ExtendsNumbered(s, arrived, t.nowUs);
    SortedConcat(stream, going);
  }

  lemma SortedConcat(a: seq<Relay>, b: seq<Relay>)
    requires StrictlySorted(a) && StrictlySorted(b)
    requires forall x, y :: x in a && y in b ==> Before(x, y)
    ensures StrictlySorted(a + b)
  {
  }

  /**
   With a clock that never runs backwards and successful sends the whole stream of a run, over all ticks and links
   and whatever is delayed, reordered or duplicated, is strictly increasing in due time and arrival; nothing is
   forwarded before it is due, and nothing that is due stays queued after a tick.
   */
  lemma {:induction false} StreamSorted(setup: Setup, events: seq<Event>)
    requires Smooth(events)
    ensures InOrder(Run(setup, events), Stream(setup, events), Clock(events))
  {
    hide Ticked, ForwardedBy, InOrder;
    if events == [] {
      NothingInOrder(setup);
    } else {
      var init := events[..|events| - 1];
      StreamSorted(setup, init);
      RunNumbered(setup, init);
      match events[|events| - 1]
      case Ticks(t) => StreamStep(Run(setup, init), Stream(setup, init), Clock(init), t, setup.server);
      case PeerConfigured(key, config) =>
        ConfigInOrder(Run(setup, init), Run(setup, events), Stream(setup, init), Clock(init));
      case DefaultConfigured(upstream, config) =>
        ConfigInOrder(Run(setup, init), Run(setup, events), Stream(setup, init), Clock(init));
    }
  }

  lemma NothingInOrder(setup: Setup)
    ensures InOrder(Fresh(setup.upstream, setup.downstream), [], 0)
  {
  }

  lemma ConfigInOrder(s: State, t: State, stream: seq<Relay>, now: nat)
    requires InOrder(s, stream, now) && s.scheduled == t.scheduled && s.orderCounter == t.orderCounter
    ensures InOrder(t, stream, now)
  {
  }

  // ---------------------------------------------------------------------------------------------
  // Delays

  /** The first number of microseconds that does not fit 64 bits. */
  const MICROS_RANGE := 18446744073709551616.0

  /**
   The delay in whole microseconds is the nearest to the given milliseconds, none for negative ones, and the largest
   64-bit number from there on.
   */
  lemma MicrosNearest(ms: real)
    ensures ms <= 0.0 ==> MicrosFromMillis(ms) == 0
    ensures 0.0 <= ms && ms * 1000.0 < MICROS_RANGE ==> -0.5 <= MicrosFromMillis(ms) as real - ms * 1000.0 <= 0.5
    ensures ms * 1000.0 >= MICROS_RANGE ==> MicrosFromMillis(ms) as real == MICROS_RANGE - 1.0
  {
    var micros := ms * 1000.0;
    var r := (micros + 0.5).Floor;
    assert r as real <= micros + 0.5 < r as real + 1.0;
  }

  function NotNegative(x: real): (r: real)
    ensures r == if x < 0.0 then 0.0 else x
  {
    if x < 0.0 then 0.0 else x
  }

  /**
   A jitter drawn within its magnitude, none when that is negative, delays by the base up to that magnitude, to the
   nearest microsecond: no less than none, and no more than 64 bits hold.
   */
  lemma DelayWithinJitter(config: LinkConfig, dice: Dice)
    requires -NotNegative(config.jitterMs) <= dice.jitterMs <= NotNegative(config.jitterMs)
    ensures var delay, reach := DelayUs(config, dice) as real, NotNegative(config.jitterMs);
      var least := NotNegative(config.baseDelayMs - reach) * 1000.0;
      var most := NotNegative(config.baseDelayMs + reach) * 1000.0;
      delay <= most + 0.5
      && (least < MICROS_RANGE ==> delay >= least - 1.0)
      && (most < MICROS_RANGE ==> delay >= least - 0.5)
      && (least >= MICROS_RANGE ==> delay == MICROS_RANGE - 1.0)
  {
    hide MicrosFromMillis;
    var ms := config.baseDelayMs + if config.jitterMs <= 0.0 then 0.0 else dice.jitterMs;
    MicrosNearest(NotNegative(ms));
  }

  /**
   What the dice decide, datagram by datagram: lost exactly on the loss roll, otherwise queued, due at once exactly
   when the reorder roll finds a queue to overtake and after the delay if not, and once more a microsecond later
   exactly on the duplicate roll.
   */
  lemma DiceDecide(config: LinkConfig, dice: Dice, nowUs: nat, queueEmpty: bool, draft: Relay)
    ensures var o := Decide(config, dice, nowUs, queueEmpty, draft);
      (o.added == [] <==> config.lossPct > dice.loss && config.lossPct > 0.0)
      && (o.delta.dropped == if o.added == [] then 1 else 0)
      && (o.added != [] ==>
            var overtakes := config.reorderPct > dice.reorder && config.reorderPct > 0.0 && !queueEmpty;
            o.added[0] == draft.(deliverAtUs := if overtakes then nowUs else nowUs + DelayUs(config, dice))
            && (o.delta.reordered == if overtakes then 1 else 0)
            && (|o.added| == 2 <==> config.duplicatePct > dice.duplicate && config.duplicatePct > 0.0)
            && (|o.added| == 2 ==>
                  o.added[1].deliverAtUs == o.added[0].deliverAtUs + 1 && o.added[1].payload == draft.payload
                  && o.added[1].destination == draft.destination))
  {
    hide DelayUs;
  }

  // ---------------------------------------------------------------------------------------------
  // First copies of one link with a constant delay

  /** The relay a datagram put into the queue of `key`, not counting a duplicate behind it. */
  function FirstCopy(before: State, after: State, key: LinkKey): seq<Relay> {
    if |after.scheduled| > |before.scheduled| && after.scheduled[|before.scheduled|].link == key
    then [after.scheduled[|before.scheduled|]] else []
  }

  function ClientCopies(s: State, arrivals: seq<Arrival>, nowUs: nat, server: Endpoint, key: LinkKey): seq<Relay> {
    if arrivals == [] then []
    else
      var init := arrivals[..|arrivals| - 1];
      ClientCopies(s, init, nowUs, server, key)
      + FirstCopy(FromClients(s, init, nowUs, server), FromClients(s, arrivals, nowUs, server), key)
  }

  function ServerCopies(s: State, arrivals: seq<Arrival>, nowUs: nat, key: LinkKey): seq<Relay> {
    if arrivals == [] then []
    else
      var init := arrivals[..|arrivals| - 1];
      ServerCopies(s, init, nowUs, key)
      + FirstCopy(FromServers(s, init, nowUs), FromServers(s, arrivals, nowUs), key)
  }

  function TickCopies(s: State, t: Tick, server: Endpoint, key: LinkKey): seq<Relay> {
    ClientCopies(s, t.fromClients, t.nowUs, server, key)
    + ServerCopies(FromClients(s, t.fromClients, t.nowUs, server), t.fromServer, t.nowUs, key)
  }

  /** The first copies of a link's packets, in order of arrival. */
  function FirstCopies(setup: Setup, events: seq<Event>, key: LinkKey): seq<Relay> {
    if events == [] then []
    else
      var init := events[..|events| - 1];
      match events[|events| - 1]
      case Ticks(t) => FirstCopies(setup, init, key) + TickCopies(Run(setup, init), t, setup.server, key)
      case _ => FirstCopies(setup, init, key)
  }

  predicate ConstantDelay(config: LinkConfig, delayUs: nat) {
    config.jitterMs <= 0.0 && config.reorderPct <= 0.0
    && MicrosFromMillis(if config.baseDelayMs < 0.0 then 0.0 else config.baseDelayMs) == delayUs
  }

  /** Every configuration the link can get delays by `delayUs`, without jitter or reordering. */
  ghost predicate ConstantLink(setup: Setup, events: seq<Event>, key: LinkKey, delayUs: nat) {
    ConstantDelay(if key.upstream then setup.upstream else setup.downstream, delayUs)
    && forall e :: e in events ==> KeepsDelay(e, key, delayUs)
  }

  predicate KeepsDelay(e: Event, key: LinkKey, delayUs: nat) {
    match e
    case PeerConfigured(k, config) => k == key ==> ConstantDelay(config, delayUs)
    case DefaultConfigured(up, config) => up == key.upstream ==> ConstantDelay(config, delayUs)
    case Ticks(_) => true
  }

  ghost predicate DelaysBy(s: State, key: LinkKey, delayUs: nat) {
    ConstantDelay(LinkOf(s, key).config, delayUs) && ConstantDelay(DefaultConfig(s, key.upstream), delayUs)
  }

  /** Copies numbered from `from` up to the state's counter, queued, and due `delayUs` after `nowUs`. */
  ghost predicate CopiesOf(s: State, copies: seq<Relay>, from: nat, dueUs: nat) {
    from <= s.orderCounter
    && (forall i, j :: 0 <= i < j < |copies| ==> copies[i].order < copies[j].order)
    && (forall r :: r in copies ==> r in s.scheduled && from <= r.order < s.orderCounter && r.deliverAtUs == dueUs)
  }

  lemma ScheduledDelays(
    s: State, at: LinkKey, destination: Endpoint, payload: seq<U8>, nowUs: nat, dice: Dice, key: LinkKey, delayUs: nat
  )
    requires DelaysBy(s, key, delayUs)
    ensures var after := Scheduled(s, at, destination, payload, nowUs, dice);
      DelaysBy(after, key, delayUs)
      && forall r :: r in FirstCopy(s, after, key) ==> r.deliverAtUs == nowUs + delayUs
  {
    hide InFlight, InFlightOf, MicrosFromMillis, Plus;
    var after := Scheduled(s, at, destination, payload, nowUs, dice);
    assert LinkOf(after, key).config == LinkOf(s, key).config;
    if at == key {
      assert !Triggers(LinkOf(s, key).config.reorderPct, dice.reorder);
      assert DelayUs(LinkOf(s, key).config, dice) == delayUs;
    } else {
      assert FirstCopy(s, after, key) == [];
    }
  }

  lemma FromClientDelays(s: State, a: Arrival, nowUs: nat, server: Endpoint, key: LinkKey, delayUs: nat)
    requires DelaysBy(s, key, delayUs)
    ensures var after := FromClient(s, a, nowUs, server);
      DelaysBy(after, key, delayUs)
      && forall r :: r in FirstCopy(s, after, key) ==> r.deliverAtUs == nowUs + delayUs
  {
    hide Scheduled, ConstantDelay;
    var d := a.datagram;
    var s1 := if d.message.Hello? then s.(sessionRoutes := s.sessionRoutes[d.message.sessionId := d.sender]) else s;
    var s2 := if d.peerId != 0 then s1.(peerRoutes := s1.peerRoutes[d.peerId := d.sender]) else s1;
    ScheduledDelays(s2, LinkKey(true, d.peerId), server, d.payload, nowUs, a.dice, key, delayUs);
  }

  lemma FromServerDelays(s: State, a: Arrival, nowUs: nat, key: LinkKey, delayUs: nat)
    requires DelaysBy(s, key, delayUs)
    ensures var after := FromServer(s, a, nowUs);
      DelaysBy(after, key, delayUs)
      && forall r :: r in FirstCopy(s, after, key) ==> r.deliverAtUs == nowUs + delayUs
  {
    hide Scheduled, ConstantDelay;
    var d := a.datagram;
    match d.message
    case Unparsed =>
    case Welcome(session, peer) =>
      if session in s.sessionRoutes {
        var route := s.sessionRoutes[session];
        var s1 := s.(peerRoutes := s.peerRoutes[peer := route]);
        ScheduledDelays(s1, LinkKey(false, peer), route, d.payload, nowUs, a.dice, key, delayUs);
      }
    case _ =>
      if d.peerId in s.peerRoutes {
        ScheduledDelays(s, LinkKey(false, d.peerId), s.peerRoutes[d.peerId], d.payload, nowUs, a.dice, key, delayUs);
      }
  }

  lemma CopyAdded(s: State, t: State, copies: seq<Relay>, from: nat, dueUs: nat, nowUs: nat, key: LinkKey)
    requires CopiesOf(s, copies, from, dueUs) && Extends(s, t, nowUs)
    requires forall r :: r in FirstCopy(s, t, key) ==> r.deliverAtUs == dueUs
    ensures CopiesOf(t, copies + FirstCopy(s, t, key), from, dueUs)
  {
    var first := FirstCopy(s, t, key);
    forall r | r in copies + first
      ensures r in t.scheduled && from <= r.order < t.orderCounter && r.deliverAtUs == dueUs
    {
      if r in copies {
        var i :| 0 <= i < |s.scheduled| && s.scheduled[i] == r;
        assert t.scheduled[..|s.scheduled|][i] == t.scheduled[i];
      }
    }
  }

  lemma {:induction false} ClientCopiesDelayed(
    s: State, arrivals: seq<Arrival>, nowUs: nat, server: Endpoint, key: LinkKey, delayUs: nat
  )
    requires DelaysBy(s, key, delayUs)
    ensures var after := FromClients(s, arrivals, nowUs, server);
      DelaysBy(after, key, delayUs)
      && CopiesOf(after, ClientCopies(s, arrivals, nowUs, server, key), s.orderCounter, nowUs + delayUs)
  {
    hide FromClient, DelaysBy, FirstCopy, Extends;
    if arrivals != [] {
      hide CopiesOf;
      var init := arrivals[..|arrivals| - 1];
      var before, after := FromClients(s, init, nowUs, server), FromClients(s, arrivals, nowUs, server);
      ClientCopiesDelayed(s, init, nowUs, server, key, delayUs);
      FromClientDelays(before, arrivals[|arrivals| - 1], nowUs, server, key, delayUs);
      FromClientExtends(before, arrivals[|arrivals| - 1], nowUs, server);
      CopyAdded(before, after, ClientCopies(s, init, nowUs, server, key), s.orderCounter, nowUs + delayUs, nowUs, key);
    }
  }

  lemma {:induction false} ServerCopiesDelayed(s: State, arrivals: seq<Arrival>, nowUs: nat, key: LinkKey, delayUs: nat)
    requires DelaysBy(s, key, delayUs)
    ensures var after := FromServers(s, arrivals, nowUs);
      DelaysBy(after, key, delayUs)
      && CopiesOf(after, ServerCopies(s, arrivals, nowUs, key), s.orderCounter, nowUs + delayUs)
  {
    hide FromServer, DelaysBy, FirstCopy, Extends;
    if arrivals != [] {
      hide CopiesOf;
      var init := arrivals[..|arrivals| - 1];
      var before, after := FromServers(s, init, nowUs), FromServers(s, arrivals, nowUs);
      ServerCopiesDelayed(s, init, nowUs, key, delayUs);
      FromServerDelays(before, arrivals[|arrivals| - 1], nowUs, key, delayUs);
      FromServerExtends(before, arrivals[|arrivals| - 1], nowUs);
      CopyAdded(before, after, ServerCopies(s, init, nowUs, key), s.orderCounter, nowUs + delayUs, nowUs, key);
    }
  }

  lemma TickCopiesDelayed(s: State, t: Tick, server: Endpoint, key: LinkKey, delayUs: nat)
    requires DelaysBy(s, key, delayUs)
    ensures var arrived := Arrived(s, t, server);
      DelaysBy(arrived, key, delayUs)
      && CopiesOf(arrived, TickCopies(s, t, server, key), s.orderCounter, t.nowUs + delayUs)
  {
    hide FromClients, FromServers, ClientCopies, ServerCopies, DelaysBy;
    var clients := FromClients(s, t.fromClients, t.nowUs, server);
    ClientCopiesDelayed(s, t.fromClients, t.nowUs, server, key, delayUs);
    ServerCopiesDelayed(clients, t.fromServer, t.nowUs, key, delayUs);
    ServersExtend(clients, t.fromServer, t.nowUs);
    CopiesConcat(clients, Arrived(s, t, server), ClientCopies(s, t.fromClients, t.nowUs, server, key),
                 ServerCopies(clients, t.fromServer, t.nowUs, key), s.orderCounter, t.nowUs + delayUs, t.nowUs);
  }

  lemma CopiesConcat(s: State, t: State, a: seq<Relay>, b: seq<Relay>, from: nat, dueUs: nat, nowUs: nat)
    requires CopiesOf(s, a, from, dueUs) && CopiesOf(t, b, s.orderCounter, dueUs) && Extends(s, t, nowUs)
    ensures CopiesOf(t, a + b, from, dueUs)
  {
    forall r | r in a
      ensures r in t.scheduled
    {
      var i :| 0 <= i < |s.scheduled| && s.scheduled[i] == r;
      assert t.scheduled[..|s.scheduled|][i] == t.scheduled[i];
    }
  }

  /** The copies so far: in order of arrival and of due time, each forwarded or still queued. */
  ghost predicate CopiesKept(s: State, stream: seq<Relay>, copies: seq<Relay>, now: nat, delayUs: nat) {
    (forall i, j :: 0 <= i < j < |copies| ==>
       copies[i].order < copies[j].order && copies[i].deliverAtUs <= copies[j].deliverAtUs)
    && (forall r :: r in copies ==>
          r.order < s.orderCounter && r.deliverAtUs <= now + delayUs && (r in stream || r in s.scheduled))
  }

  lemma CopiesStep(
    s: State, stream: seq<Relay>, copies: seq<Relay>, now: nat, delayUs: nat, t: Tick, server: Endpoint, key: LinkKey
  )
    requires Numbered(s) && CopiesKept(s, stream, copies, now, delayUs) && now <= t.nowUs
    requires DelaysBy(s, key, delayUs)
    ensures CopiesKept(Ticked(s, t, server), stream + ForwardedBy(s, t, server),
                       copies + TickCopies(s, t, server, key), t.nowUs, delayUs)
  {
    hide Ticked, ForwardedBy, Arrived, TickCopies, DelaysBy, Goes, Before;
    var arrived, going, more := Arrived(s, t, server), ForwardedBy(s, t, server), TickCopies(s, t, server, key);
    TickSplits(s, t, server);
    ArrivedExtends(s, t, server);
    ExtendsNumbered(s, arrived, t.nowUs);
    TickCopiesDelayed(s, t, server, key, delayUs);
    assert forall r :: r in copies ==> r.deliverAtUs <= t.nowUs + delayUs && r.order < s.orderCounter;
    CopiesAppend(copies, more, s.orderCounter, t.nowUs + delayUs, arrived);
    forall r | r in copies + more
      ensures r in stream + going || r in Ticked(s, t, server).scheduled
    {
      assert r in stream || r in arrived.scheduled;
    }
  }

  lemma CopiesAppend(copies: seq<Relay>, more: seq<Relay>, from: nat, dueUs: nat, arrived: State)
    requires forall i, j :: 0 <= i < j < |copies| ==>
               copies[i].order < copies[j].order && copies[i].deliverAtUs <= copies[j].deliverAtUs
    requires forall r :: r in copies ==> r.deliverAtUs <= dueUs && r.order < from
    requires CopiesOf(arrived, more, from, dueUs)
    ensures var all := copies + more;
      forall i, j :: 0 <= i < j < |all| ==> all[i].order < all[j].order && all[i].deliverAtUs <= all[j].deliverAtUs
    ensures forall r :: r in copies + more ==> r.order < arrived.orderCounter && r.deliverAtUs <= dueUs
  {
    var all := copies + more;
    forall i, j | 0 <= i < j < |all|
      ensures all[i].order < all[j].order && all[i].deliverAtUs <= all[j].deliverAtUs
    {
      assert all[j] in if j < |copies| then copies else more;
      assert all[i] in if i < |copies| then copies else more;
      if |copies| <= i {
        assert all[i] == more[i - |copies|] && all[j] == more[j - |copies|];
      }
    }
  }

  lemma TickKeepsDelays(s: State, t: Tick, server: Endpoint, key: LinkKey, delayUs: nat)
    requires DelaysBy(s, key, delayUs)
    ensures DelaysBy(Ticked(s, t, server), key, delayUs)
  {
    hide Arrived, Sorted, Going, Staying, CountedForward, InFlight, InFlightOf, ConstantDelay;
    var arrived := Arrived(s, t, server);
    TickCopiesDelayed(s, t, server, key, delayUs);
    ForwardKeepsConfig(arrived, Going(Sorted(arrived.scheduled), t.nowUs, t.sendOk), key);
  }

  lemma {:induction false} ForwardKeepsConfig(s: State, rs: seq<Relay>, key: LinkKey)
    ensures LinkOf(CountedForward(s, rs), key).config == LinkOf(s, key).config
    ensures DefaultConfig(CountedForward(s, rs), key.upstream) == DefaultConfig(s, key.upstream)
  {
    hide Plus;
    if rs != [] {
      ForwardKeepsConfig(s, rs[..|rs| - 1], key);
    }
  }

  lemma {:induction false} RunDelays(setup: Setup, events: seq<Event>, key: LinkKey, delayUs: nat)
    requires ConstantLink(setup, events, key, delayUs)
    ensures DelaysBy(Run(setup, events), key, delayUs)
  {
    hide Ticked, ConstantDelay;
    if events != [] {
      var init, e := events[..|events| - 1], events[|events| - 1];
      assert e in events && forall x :: x in init ==> x in events;
      RunDelays(setup, init, key, delayUs);
      match e
      case Ticks(t) => TickKeepsDelays(Run(setup, init), t, setup.server, key, delayUs);
      case _ =>
    }
  }

  lemma ConstantLinkInit(setup: Setup, events: seq<Event>, key: LinkKey, delayUs: nat)
    requires events != [] && ConstantLink(setup, events, key, delayUs)
    ensures ConstantLink(setup, events[..|events| - 1], key, delayUs)
  {
    assert forall x :: x in events[..|events| - 1] ==> x in events;
  }

  lemma {:induction false} RunKeepsCopies(setup: Setup, events: seq<Event>, key: LinkKey, delayUs: nat)
    requires Smooth(events) && ConstantLink(setup, events, key, delayUs)
    ensures CopiesKept(Run(setup, events), Stream(setup, events), FirstCopies(setup, events, key), Clock(events),
        delayUs)
  {
    hide Ticked, ForwardedBy, TickCopies, CopiesKept, ConstantLink;
    if events == [] {
      NoCopies(setup, delayUs);
    } else {
      var init := events[..|events| - 1];
      var s := Run(setup, init);
      ConstantLinkInit(setup, events, key, delayUs);
      RunKeepsCopies(setup, init, key, delayUs);
      RunNumbered(setup, init);
      RunDelays(setup, init, key, delayUs);
      match events[|events| - 1]
      case Ticks(t) =>
        CopiesStep(s, Stream(setup, init), FirstCopies(setup, init, key), Clock(init), delayUs, t, setup.server, key);
      case PeerConfigured(k, config) =>
        ConfigKeepsCopies(s, WithPeerConfig(s, k, config), Stream(setup, init), FirstCopies(setup, init, key),
                          Clock(init), delayUs);
      case DefaultConfigured(up, config) =>
        ConfigKeepsCopies(s, WithDefaultConfig(s, up, config), Stream(setup, init), FirstCopies(setup, init, key),
                          Clock(init), delayUs);
    }
  }

  lemma NoCopies(setup: Setup, delayUs: nat)
    ensures CopiesKept(Fresh(setup.upstream, setup.downstream), [], [], 0, delayUs)
  {
  }

  lemma ConfigKeepsCopies(s: State, t: State, stream: seq<Relay>, copies: seq<Relay>, now: nat, delayUs: nat)
    requires CopiesKept(s, stream, copies, now, delayUs)
    requires t.scheduled == s.scheduled && t.orderCounter == s.orderCounter
    ensures CopiesKept(t, stream, copies, now, delayUs)
  {
  }

  /**
   First in, first out and on time: over a whole run with a forward clock and successful sends, the first copies of
   the packets of a link with a constant delay have been forwarded exactly when they are due, and in their order of
   arrival.
   */
  lemma ConstantLinkFifo(setup: Setup, events: seq<Event>, key: LinkKey, delayUs: nat)
    requires Smooth(events) && ConstantLink(setup, events, key, delayUs)
    ensures var stream, copies := Stream(setup, events), FirstCopies(setup, events, key);
      (forall r :: r in copies ==> (r in stream <==> r.deliverAtUs <= Clock(events)))
      && forall i, j :: 0 <= i < j < |copies| && copies[j] in stream ==> Precedes(stream, copies[i], copies[j])
  {
    hide Run, Stream, FirstCopies, Clock, Smooth, ConstantLink;
    var s, stream, copies := Run(setup, events), Stream(setup, events), FirstCopies(setup, events, key);
    StreamSorted(setup, events);
    RunKeepsCopies(setup, events, key, delayUs);
    forall i, j | 0 <= i < j < |copies| && copies[j] in stream
      ensures Precedes(stream, copies[i], copies[j])
    {
      assert copies[i] in copies && copies[j] in copies;
      assert copies[i] in stream;
      SortedPrecedes(stream, copies[i], copies[j]);
    }
  }

  /** `x` is sent before `y`. */
  ghost predicate Precedes(stream: seq<Relay>, x: Relay, y: Relay) {
    exists a, b :: 0 <= a < b < |stream| && stream[a] == x && stream[b] == y
  }

  lemma SortedPrecedes(stream: seq<Relay>, x: Relay, y: Relay)
    requires StrictlySorted(stream) && x in stream && y in stream && Before(x, y)
    ensures Precedes(stream, x, y)
  {
    var a :| 0 <= a < |stream| && stream[a] == x;
    var b :| 0 <= b < |stream| && stream[b] == y;
    assert b < a ==> Before(stream[b], stream[a]);
  }
}
