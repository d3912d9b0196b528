/**
 The lossy proxy between clients and server: per link it drops, delays, reorders and duplicates datagrams and
 counts what it does.  The dice and the success of a send come from outside.
 */
module Proxy {
  import opened Collections
  import opened Words

  datatype Endpoint = Endpoint(host: string, port: U16)

  datatype LinkConfig = LinkConfig(
    baseDelayMs: real, jitterMs: real, lossPct: real, duplicatePct: real, reorderPct: real)

  datatype Stats = Stats(received: nat, forwarded: nat, dropped: nat, duplicated: nat, reordered: nat, queued: nat)

  const NO_STATS := Stats(0, 0, 0, 0, 0, 0)

  /** One direction of one peer's traffic. */
  datatype LinkKey = LinkKey(upstream: bool, peerId: U16)

  datatype Link = Link(config: LinkConfig, stats: Stats)

  datatype Relay = Relay(
    link: LinkKey, deliverAtUs: nat, order: nat, destination: Endpoint, payload: seq<U8>)

  /** What parsing a datagram tells the proxy. */
  datatype Message = Unparsed | Hello(sessionId: U32)
    | Welcome(welcomedSession: U32, assignedPeerId: U16) | CommandBundle | OtherMessage

  datatype Datagram = Datagram(sender: Endpoint, peerId: U16, message: Message, payload: seq<U8>)

  /** The random draws for one relay: percentages in 0..100 and a jitter in milliseconds. */
  datatype Dice = Dice(loss: real, jitterMs: real, reorder: real, duplicate: real)

  datatype Arrival = Arrival(datagram: Datagram, dice: Dice)

  type Links = map<LinkKey, Link>

  datatype State = State(
    links: Links,
    sessionRoutes: map<U32, Endpoint>,
    peerRoutes: map<U16, Endpoint>,
    scheduled: seq<Relay>,
    upstream: Stats,
    downstream: Stats,
    orderCounter: nat,
    defaultUpstream: LinkConfig,
    defaultDownstream: LinkConfig)

  function Aggregate(s: State, upstream: bool): Stats {
    if upstream then s.upstream else s.downstream
  }

  function DefaultConfig(s: State, upstream: bool): LinkConfig {
    if upstream then s.defaultUpstream else s.defaultDownstream
  }

  // ---------------------------------------------------------------------------------------------
  // Links and counters

  /** The link of the key, made with the default configuration when there is none. */
  function LinkOf(s: State, key: LinkKey): Link {
    if key in s.links then s.links[key] else Link(DefaultConfig(s, key.upstream), NO_STATS)
  }

  /** What one relayed or forwarded datagram adds to the counters. */
  datatype Delta = Delta(received: nat, forwarded: nat, dropped: nat, duplicated: nat, reordered: nat)

  function Plus(a: Stats, d: Delta): Stats {
    a.(received := a.received + d.received,
       forwarded := a.forwarded + d.forwarded,
       dropped := a.dropped + d.dropped,
       duplicated := a.duplicated + d.duplicated,
       reordered := a.reordered + d.reordered)
  }

  /** Adds to the link, which is made if needed, and to its direction's aggregate. */
  function Counted(s: State, key: LinkKey, d: Delta): State {
    var link := LinkOf(s, key);
    s.(links := s.links[key := link.(stats := Plus(link.stats, d))],
       upstream := if key.upstream then Plus(s.upstream, d) else s.upstream,
       downstream := if key.upstream then s.downstream else Plus(s.downstream, d))
  }

  function InFlight(rs: seq<Relay>, key: LinkKey): nat {
    if rs == [] then 0
    else InFlight(rs[..|rs| - 1], key) + if rs[|rs| - 1].link == key then 1 else 0
  }

  function InFlightOf(rs: seq<Relay>, upstream: bool): nat {
    if rs == [] then 0
    else InFlightOf(rs[..|rs| - 1], upstream) + if rs[|rs| - 1].link.upstream == upstream then 1 else 0
  }

  /** The queue lengths set to what `rs` holds. */
  function WithQueue(s: State, rs: seq<Relay>): State {
    s.(links := map key | key in s.links :: QueueOf(s.links[key], InFlight(rs, key)),
       upstream := s.upstream.(queued := InFlightOf(rs, true)),
       downstream := s.downstream.(queued := InFlightOf(rs, false)))
  }

  function QueueOf(link: Link, queued: nat): Link {
    link.(stats := link.stats.(queued := queued))
  }

  // ---------------------------------------------------------------------------------------------
  // Scheduling one relay

  predicate Triggers(pct: real, roll: real) {
    pct > 0.0 && roll < pct
  }

  function MicrosFromMillis(ms: real): nat {
    if ms <= 0.0 then 0
    else
      var micros := ms * 1000.0;
      if micros >= 18446744073709551616.0 then 18446744073709551615 else (micros + 0.5).Floor
  }

  function DelayUs(config: LinkConfig, dice: Dice): nat {
    var ms := config.baseDelayMs + if config.jitterMs <= 0.0 then 0.0 else dice.jitterMs;
    MicrosFromMillis(if ms < 0.0 then 0.0 else ms)
  }

  datatype Outcome = Outcome(delta: Delta, added: seq<Relay>)

  /** What becomes of one datagram: dropped, or one relay, or two; `first` has the next order and the destination. */
  function Decide(config: LinkConfig, dice: Dice, nowUs: nat, queueEmpty: bool, draft: Relay): (o: Outcome)
    ensures |o.added| <= 2
    ensures o.delta.received == 1 && o.delta.forwarded == 0
    ensures 1 + o.delta.duplicated == o.delta.dropped + |o.added|
    ensures forall i :: 0 <= i < |o.added| ==>
              o.added[i].link == draft.link && o.added[i].order == draft.order + i && o.added[i].deliverAtUs >= nowUs
  {
    if Triggers(config.lossPct, dice.loss) then Outcome(Delta(1, 0, 1, 0, 0), [])
    else
      var reordered := Triggers(config.reorderPct, dice.reorder) && !queueEmpty;
      var first := draft.(deliverAtUs := if reordered then nowUs else nowUs + DelayUs(config, dice));
      if Triggers(config.duplicatePct, dice.duplicate) then
        Outcome(Delta(1, 0, 0, 1, if reordered then 1 else 0),
                [first, first.(order := first.order + 1, deliverAtUs := first.deliverAtUs + 1)])
      else Outcome(Delta(1, 0, 0, 0, if reordered then 1 else 0), [first])
  }

  function DecideFor(s: State, key: LinkKey, destination: Endpoint, payload: seq<U8>, nowUs: nat, dice: Dice): Outcome {
    Decide(LinkOf(s, key).config, dice, nowUs, s.scheduled == [],
           Relay(key, nowUs, s.orderCounter, destination, payload))
  }

  function Scheduled(s: State, key: LinkKey, destination: Endpoint, payload: seq<U8>, nowUs: nat, dice: Dice): State {
    var o := DecideFor(s, key, destination, payload, nowUs, dice);
    var after := Counted(s, key, o.delta).(
      scheduled := s.scheduled + o.added, orderCounter := s.orderCounter + |o.added|);
    WithQueue(after, after.scheduled)
  }

  // ---------------------------------------------------------------------------------------------
  // A tick

  function FromClient(s: State, a: Arrival, nowUs: nat, server: Endpoint): State {
    var d := a.datagram;
    if d.message.Unparsed? then s
    else
      var s1 := if d.message.Hello? then s.(sessionRoutes := s.sessionRoutes[d.message.sessionId := d.sender]) else s;
      var s2 := if d.peerId != 0 then s1.(peerRoutes := s1.peerRoutes[d.peerId := d.sender]) else s1;
      Scheduled(s2, LinkKey(true, d.peerId), server, d.payload, nowUs, a.dice)
  }

  function FromServer(s: State, a: Arrival, nowUs: nat): State {
    var d := a.datagram;
    match d.message
    case Unparsed => s
    case Welcome(session, peer) =>
      if session in s.sessionRoutes then
        var route := s.sessionRoutes[session];
        Scheduled(s.(peerRoutes := s.peerRoutes[peer := route]), LinkKey(false, peer), route, d.payload, nowUs, a.dice)
      else s
    case _ =>
      if d.peerId in s.peerRoutes then
        Scheduled(s, LinkKey(false, d.peerId), s.peerRoutes[d.peerId], d.payload, nowUs, a.dice)
      else s
  }

  /** The command bundles among parsed client datagrams: each is also sent on at once as a control copy. */
  function Bundles(arrivals: seq<Arrival>): seq<Datagram> {
    if arrivals == [] then []
    else
      var init, d := Bundles(arrivals[..|arrivals| - 1]), arrivals[|arrivals| - 1].datagram;
      if d.message.CommandBundle? then init + [d] else init
  }

  function FromClients(s: State, arrivals: seq<Arrival>, nowUs: nat, server: Endpoint): State {
    if arrivals == [] then s
    else FromClient(FromClients(s, arrivals[..|arrivals| - 1], nowUs, server), arrivals[|arrivals| - 1], nowUs, server)
  }

  function FromServers(s: State, arrivals: seq<Arrival>, nowUs: nat): State {
    if arrivals == [] then s
    else FromServer(FromServers(s, arrivals[..|arrivals| - 1], nowUs), arrivals[|arrivals| - 1], nowUs)
  }

  predicate Before(a: Relay, b: Relay) {
    a.deliverAtUs < b.deliverAtUs || (a.deliverAtUs == b.deliverAtUs && a.order < b.order)
  }

  /** `r` put behind every relay it does not come before. */
  function Inserted(rs: seq<Relay>, r: Relay): seq<Relay> {
    if rs == [] || !Before(r, rs[|rs| - 1]) then rs + [r]
    else Inserted(rs[..|rs| - 1], r) + [rs[|rs| - 1]]
  }

  function Sorted(rs: seq<Relay>): seq<Relay> {
    if rs == [] then [] else Inserted(Sorted(rs[..|rs| - 1]), rs[|rs| - 1])
  }

  predicate Goes(r: Relay, nowUs: nat, sendOk: nat -> bool) {
    r.deliverAtUs <= nowUs && sendOk(r.order)
  }

  /** The relays of `rs` that are due and sent, and those that stay, in order. */
  function Going(rs: seq<Relay>, nowUs: nat, sendOk: nat -> bool): seq<Relay> {
    if rs == [] then []
    else
      var init, r := Going(rs[..|rs| - 1], nowUs, sendOk), rs[|rs| - 1];
      if Goes(r, nowUs, sendOk) then init + [r] else init
  }

  function Staying(rs: seq<Relay>, nowUs: nat, sendOk: nat -> bool): seq<Relay> {
    if rs == [] then []
    else
      var init, r := Staying(rs[..|rs| - 1], nowUs, sendOk), rs[|rs| - 1];
      if Goes(r, nowUs, sendOk) then init else init + [r]
  }

  /** Counts every relay of `rs` as forwarded on its link. */
  function CountedForward(s: State, rs: seq<Relay>): State {
    if rs == [] then s
    else Counted(CountedForward(s, rs[..|rs| - 1]), rs[|rs| - 1].link, Delta(0, 1, 0, 0, 0))
  }

  datatype Tick = Tick(nowUs: nat, fromClients: seq<Arrival>, fromServer: seq<Arrival>, sendOk: nat -> bool)

  function Arrived(s: State, t: Tick, server: Endpoint): State {
    FromServers(FromClients(s, t.fromClients, t.nowUs, server), t.fromServer, t.nowUs)
  }

  /** The relays a tick forwards, in the order it sends them. */
  function ForwardedBy(s: State, t: Tick, server: Endpoint): seq<Relay> {
    Going(Sorted(Arrived(s, t, server).scheduled), t.nowUs, t.sendOk)
  }

  function Ticked(s: State, t: Tick, server: Endpoint): State {
    var arrived := Arrived(s, t, server);
    var sorted := Sorted(arrived.scheduled);
    var after := CountedForward(arrived, Going(sorted, t.nowUs, t.sendOk)).(
      scheduled := Staying(sorted, t.nowUs, t.sendOk));
    WithQueue(after, after.scheduled)
  }

  function WithPeerConfig(s: State, key: LinkKey, config: LinkConfig): State {
    s.(links := s.links[key := Link(config, NO_STATS)])
  }

  function WithDefaultConfig(s: State, upstream: bool, config: LinkConfig): State {
    if upstream then s.(defaultUpstream := config) else s.(defaultDownstream := config)
  }

  function Fresh(defaultUpstream: LinkConfig, defaultDownstream: LinkConfig): State {
    State(map[], map[], map[], [], NO_STATS, NO_STATS, 0, defaultUpstream, defaultDownstream)
  }

  // ---------------------------------------------------------------------------------------------
  // The code

  class ProxyRuntime {
    const serverEndpoint: Endpoint
    var links: Links
    var sessionRoutes: map<U32, Endpoint>
    var peerRoutes: map<U16, Endpoint>
    var scheduled: seq<Relay>
    var upstreamAggregate: Stats
    var downstreamAggregate: Stats
    var orderCounter: nat
    var defaultUpstream: LinkConfig
    var defaultDownstream: LinkConfig

    function Now(): State
      reads this
    {
      State(links, sessionRoutes, peerRoutes, scheduled, upstreamAggregate, downstreamAggregate, orderCounter,
            defaultUpstream, defaultDownstream)
    }

    constructor (server: Endpoint, upstreamConfig: LinkConfig, downstreamConfig: LinkConfig)
      ensures serverEndpoint == server && Now() == Fresh(upstreamConfig, downstreamConfig)
    {
      serverEndpoint := server;
      links, sessionRoutes, peerRoutes, scheduled, orderCounter := map[], map[], map[], [], 0;
      upstreamAggregate, downstreamAggregate := NO_STATS, NO_STATS;
      defaultUpstream, defaultDownstream := upstreamConfig, downstreamConfig;
    }

    method EnsureLinkState(key: LinkKey) returns (link: Link)
      modifies this`links
      ensures link == LinkOf(old(Now()), key)
      ensures links == old(links)[key := link]
    {
      if key in links {
        link := links[key];
        assert links == links[key := link];
        return;
      }
      link := Link(if key.upstream then defaultUpstream else defaultDownstream, NO_STATS);
      links := links[key := link];
    }

    /** Adds to the counters of a link and of its direction. */
    method Count(key: LinkKey, d: Delta)
      modifies this`links, this`upstreamAggregate, this`downstreamAggregate
      ensures Now() == Counted(old(Now()), key, d)
    {
      var link := EnsureLinkState(key);
      links := links[key := link.(stats := Plus(link.stats, d))];
      if key.upstream {
        upstreamAggregate := Plus(upstreamAggregate, d);
      } else {
        downstreamAggregate := Plus(downstreamAggregate, d);
      }
      assert links == old(links)[key := link.(stats := Plus(link.stats, d))];
    }

    /** Clears every queue length. */
    method ClearQueuedStats()
      modifies this`links, this`upstreamAggregate, this`downstreamAggregate
      ensures Now() == WithQueue(old(Now()), [])
    {
      upstreamAggregate := upstreamAggregate.(queued := 0);
      downstreamAggregate := downstreamAggregate.(queued := 0);
      links := WithoutQueues(links);
    }

    method UpdateQueuedStats()
      modifies this`links, this`upstreamAggregate, this`downstreamAggregate
      ensures Now() == WithQueue(old(Now()), scheduled)
    {
      hide QueueOf;
      ghost var start := Now();
      ClearQueuedStats();
      for i := 0 to |scheduled|
        invariant scheduled == start.scheduled && Now() == WithQueue(start, scheduled[..i])
      {
        assert scheduled[..i + 1][..i] == scheduled[..i];
        CountQueued(scheduled[i].link);
        QueueOneMore(start, scheduled[..i], scheduled[i]);
        assert scheduled[..i] + [scheduled[i]] == scheduled[..i + 1];
      }
      assert scheduled[..|scheduled|] == scheduled;
    }

    /** Adds one to the queue lengths of a link, if it is known, and of its direction. */
    method CountQueued(key: LinkKey)
      modifies this`links, this`upstreamAggregate, this`downstreamAggregate
      ensures Now() == WithOneQueued(old(Now()), key)
    {
      if key.upstream {
        upstreamAggregate := upstreamAggregate.(queued := upstreamAggregate.queued + 1);
      } else {
        downstreamAggregate := downstreamAggregate.(queued := downstreamAggregate.queued + 1);
      }
      if key in links {
        links := links[key := QueueOf(links[key], links[key].stats.queued + 1)];
      }
    }

    /** Rolls the dice for one datagram and queues what is left of it. */
    method Admit(config: LinkConfig, key: LinkKey, destination: Endpoint, payload: seq<U8>, nowUs: nat, dice: Dice)
      returns (delta: Delta)
      modifies this`scheduled, this`orderCounter
      ensures var o := Decide(config, dice, nowUs, old(scheduled) == [],
                              Relay(key, nowUs, old(orderCounter), destination, payload));
        delta == o.delta && scheduled == old(scheduled) + o.added
        && orderCounter == old(orderCounter) + |o.added|
    {
      hide Triggers, DelayUs;
      if Triggers(config.lossPct, dice.loss) {
        return Delta(1, 0, 1, 0, 0);
      }
      delta := Delta(1, 0, 0, 0, 0);
      var deliverAtUs := nowUs + DelayUs(config, dice);
      if Triggers(config.reorderPct, dice.reorder) && scheduled != [] {
        delta := delta.(reordered := 1);
        deliverAtUs := nowUs;
      }
      var relay := Relay(key, deliverAtUs, orderCounter, destination, payload);
      orderCounter := orderCounter + 1;
      scheduled := scheduled + [relay];
      if Triggers(config.duplicatePct, dice.duplicate) {
        delta := delta.(duplicated := 1);
        var duplicate := relay.(order := orderCounter, deliverAtUs := relay.deliverAtUs + 1);
        orderCounter := orderCounter + 1;
        scheduled := scheduled + [duplicate];
      }
    }

    method ScheduleRelay(key: LinkKey, destination: Endpoint, payload: seq<U8>, nowUs: nat, dice: Dice)
      modifies this
      ensures Now() == Scheduled(old(Now()), key, destination, payload, nowUs, dice)
    {
      hide WithQueue, Decide, Plus;
      ghost var start := Now();
      var link := EnsureLinkState(key);
      var delta := Admit(link.config, key, destination, payload, nowUs, dice);
      Count(key, delta);
      SameLinkCounted(start, key, delta);
      UpdateQueuedStats();
    }

    method RelayClientPacket(a: Arrival, nowUs: nat) returns (forked: seq<Datagram>)
      modifies this
      ensures Now() == FromClient(old(Now()), a, nowUs, serverEndpoint)
      ensures forked == if a.datagram.message.CommandBundle? then [a.datagram] else []
    {
      hide Scheduled;
      forked := [];
      var d := a.datagram;
      if d.message.Unparsed? {
        return;
      }
      if d.message.Hello? {
        sessionRoutes := sessionRoutes[d.message.sessionId := d.sender];
      }
      if d.peerId != 0 {
        peerRoutes := peerRoutes[d.peerId := d.sender];
      }
      if d.message.CommandBundle? {
        forked := [d];
      }
      ScheduleRelay(LinkKey(true, d.peerId), serverEndpoint, d.payload, nowUs, a.dice);
    }

    method RelayServerPacket(a: Arrival, nowUs: nat)
      modifies this
      ensures Now() == FromServer(old(Now()), a, nowUs)
    {
      hide Scheduled;
      var d := a.datagram;
      if d.message.Unparsed? {
        return;
      }
      var peerId := d.peerId;
      var destination: Endpoint;
      if d.message.Welcome? {
        if d.message.welcomedSession !in sessionRoutes {
          return;
        }
        peerId := d.message.assignedPeerId;
        destination := sessionRoutes[d.message.welcomedSession];
        peerRoutes := peerRoutes[peerId := destination];
      } else {
        if peerId !in peerRoutes {
          return;
        }
        destination := peerRoutes[peerId];
      }
      ScheduleRelay(LinkKey(false, peerId), destination, d.payload, nowUs, a.dice);
    }

    method RelayClientPackets(arrivals: seq<Arrival>, nowUs: nat) returns (forked: seq<Datagram>)
      modifies this
      ensures Now() == FromClients(old(Now()), arrivals, nowUs, serverEndpoint)
      ensures forked == Bundles(arrivals)
    {
      hide FromClient;
      ghost var start := Now();
      forked := [];
      for i := 0 to |arrivals|
        invariant Now() == FromClients(start, arrivals[..i], nowUs, serverEndpoint)
        invariant forked == Bundles(arrivals[..i])
      {
        assert arrivals[..i + 1][..i] == arrivals[..i];
        var fork := RelayClientPacket(arrivals[i], nowUs);
        forked := forked + fork;
      }
      assert arrivals[..|arrivals|] == arrivals;
    }

    method RelayServerPackets(arrivals: seq<Arrival>, nowUs: nat)
      modifies this
      ensures Now() == FromServers(old(Now()), arrivals, nowUs)
    {
      hide FromServer;
      ghost var start := Now();
      for i := 0 to |arrivals|
        invariant Now() == FromServers(start, arrivals[..i], nowUs)
      {
        assert arrivals[..i + 1][..i] == arrivals[..i];
        RelayServerPacket(arrivals[i], nowUs);
      }
      assert arrivals[..|arrivals|] == arrivals;
    }

    /** Counts the relay at `at` as forwarded and erases it. */
    method Forward(at: nat)
      requires at < |scheduled|
      modifies this
      ensures Now() == Counted(old(Now()), old(scheduled)[at].link, Delta(0, 1, 0, 0, 0)).(
                         scheduled := old(scheduled)[..at] + old(scheduled)[at + 1..])
    {
      Count(scheduled[at].link, Delta(0, 1, 0, 0, 0));
      scheduled := scheduled[..at] + scheduled[at + 1..];
    }

    /** Sends what is due, in the order of the queue, and erases what was sent. */
    method SendDue(nowUs: nat, sendOk: nat -> bool) returns (forwarded: seq<Relay>)
      modifies this
      ensures forwarded == Going(old(scheduled), nowUs, sendOk)
      ensures Now() == CountedForward(old(Now()), forwarded).(scheduled := Staying(old(scheduled), nowUs, sendOk))
    {
      hide Counted, CountedForward, Going, Staying, Midway;
      ghost var start, queue := Now(), scheduled;
      forwarded := [];
      var at := 0;
      ghost var done := 0;
      MidwayStarts(start, queue, nowUs, sendOk);
      while at < |scheduled|
        invariant Midway(queue, done, nowUs, sendOk, forwarded, scheduled, at)
        invariant Now() == CountedForward(start, forwarded).(scheduled := scheduled)
        decreases |scheduled| - at
      {
        MidwayStep(queue, done, nowUs, sendOk, forwarded, scheduled, at);
        done := done + 1;
        var relay := scheduled[at];
        if relay.deliverAtUs > nowUs || !sendOk(relay.order) {
          at := at + 1;
          continue;
        }
        ForwardOneMore(start, forwarded, relay, scheduled);
        forwarded := forwarded + [relay];
        Forward(at);
      }
      MidwayEnds(queue, done, nowUs, sendOk, forwarded, scheduled, at);
    }

    method Advance(t: Tick) returns (forwarded: seq<Relay>, forked: seq<Datagram>)
      modifies this
      ensures Now() == Ticked(old(Now()), t, serverEndpoint)
      ensures forwarded == ForwardedBy(old(Now()), t, serverEndpoint)
      ensures forked == Bundles(t.fromClients)
    {
      hide FromClients, FromServers, Bundles, Sorted, Going, Staying, CountedForward, WithQueue;
      forked := RelayClientPackets(t.fromClients, t.nowUs);
      RelayServerPackets(t.fromServer, t.nowUs);
      ghost var arrived := Now();
      scheduled := Sorted(scheduled);
      forwarded := SendDue(t.nowUs, t.sendOk);
      ForwardIgnoresQueue(arrived, Sorted(arrived.scheduled), forwarded);
      UpdateQueuedStats();
    }

    method SetDefaultLinkConfig(upstream: bool, config: LinkConfig)
      modifies this
      ensures Now() == WithDefaultConfig(old(Now()), upstream, config)
    {
      if upstream {
        defaultUpstream := config;
      } else {
        defaultDownstream := config;
      }
    }

    method SetPeerLinkConfig(key: LinkKey, config: LinkConfig)
      modifies this
      ensures Now() == WithPeerConfig(old(Now()), key, config)
    {
      links := links[key := Link(config, NO_STATS)];
    }

    method PeerLinkConfig(key: LinkKey) returns (config: LinkConfig)
      ensures config == LinkOf(Now(), key).config
    {
      config := if key in links then links[key].config else if key.upstream then defaultUpstream else defaultDownstream;
    }
  }

  /** The loop over the links of one map. */
  method WithoutQueues(before: Links) returns (links: Links)
    ensures links == map key | key in before :: QueueOf(before[key], 0)
  {
    hide QueueOf;
    links := before;
    var todo := links.Keys;
    while todo != {}
      invariant todo <= links.Keys == before.Keys
      invariant forall key :: key in todo ==> links[key] == before[key]
      invariant forall key :: key in before && key !in todo ==> links[key] == QueueOf(before[key], 0)
      decreases |todo|
    {
      var key := AnyOf(todo);
      links := links[key := QueueOf(links[key], 0)];
      todo := todo - {key};
    }
  }

  /** `done` relays of the queue are decided, of which those before `at` stay. */
  ghost predicate Midway(
    queue: seq<Relay>, done: nat, nowUs: nat, sendOk: nat -> bool, forwarded: seq<Relay>, left: seq<Relay>, at: nat
  )
  {
    done <= |queue|
    && forwarded == Going(queue[..done], nowUs, sendOk)
    && left == Staying(queue[..done], nowUs, sendOk) + queue[done..]
    && at == |Staying(queue[..done], nowUs, sendOk)|
  }

  lemma MidwayStarts(s: State, queue: seq<Relay>, nowUs: nat, sendOk: nat -> bool)
    ensures CountedForward(s, []) == s && Midway(queue, 0, nowUs, sendOk, [], queue, 0)
  {
  }

  lemma MidwayStep(
    queue: seq<Relay>, done: nat, nowUs: nat, sendOk: nat -> bool, forwarded: seq<Relay>, left: seq<Relay>, at: nat
  )
    requires Midway(queue, done, nowUs, sendOk, forwarded, left, at) && at < |left|
    ensures if Goes(left[at], nowUs, sendOk)
            then Midway(queue, done + 1, nowUs, sendOk, forwarded + [left[at]], left[..at] + left[at + 1..], at)
            else Midway(queue, done + 1, nowUs, sendOk, forwarded, left, at + 1)
  {
    assert left[at] == queue[done];
    assert queue[..done + 1][..done] == queue[..done];
  }

  lemma MidwayEnds(
    queue: seq<Relay>, done: nat, nowUs: nat, sendOk: nat -> bool, forwarded: seq<Relay>, left: seq<Relay>, at: nat
  )
    requires Midway(queue, done, nowUs, sendOk, forwarded, left, at) && at >= |left|
    ensures forwarded == Going(queue, nowUs, sendOk) && left == Staying(queue, nowUs, sendOk)
  {
    assert done == |queue| && queue[..done] == queue;
  }

  lemma ForwardOneMore(s: State, rs: seq<Relay>, r: Relay, queue: seq<Relay>)
    ensures Counted(CountedForward(s, rs).(scheduled := queue), r.link, Delta(0, 1, 0, 0, 0))
         == CountedForward(s, rs + [r]).(scheduled := queue)
  {
    assert (rs + [r])[..|rs|] == rs;
  }

  /** Counting does not look at the queue. */
  lemma {:induction false} ForwardIgnoresQueue(s: State, queue: seq<Relay>, rs: seq<Relay>)
    ensures CountedForward(s.(scheduled := queue), rs) == CountedForward(s, rs).(scheduled := queue)
    ensures CountedForward(s, rs).scheduled == s.scheduled
  {
    if rs != [] {
      ForwardIgnoresQueue(s, queue, rs[..|rs| - 1]);
    }
  }

  /** Making the link first and counting on it then is counting on it. */
  lemma SameLinkCounted(s: State, key: LinkKey, d: Delta)
    ensures Counted(s.(links := s.links[key := LinkOf(s, key)]), key, d) == Counted(s, key, d)
  {
  }

  function WithOneQueued(s: State, key: LinkKey): State {
    var s1 :=
      if key.upstream then s.(upstream := s.upstream.(queued := s.upstream.queued + 1))
      else s.(downstream := s.downstream.(queued := s.downstream.queued + 1));
    if key in s.links then s1.(links := s1.links[key := QueueOf(s1.links[key], s1.links[key].stats.queued + 1)]) else s1
  }

  lemma QueueOneMore(s: State, rs: seq<Relay>, r: Relay)
    ensures WithQueue(s, rs + [r]) == WithOneQueued(WithQueue(s, rs), r.link)
  {
    assert (rs + [r])[..|rs|] == rs;
    var a, b := WithQueue(s, rs + [r]), WithOneQueued(WithQueue(s, rs), r.link);
    assert a.links == b.links by {
      assert forall key :: key in s.links ==> a.links[key] == b.links[key];
    }
  }
}
