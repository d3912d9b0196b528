/**
 Where the proxy sends what: routes, link configurations and the fate of every datagram, from the events alone.
 */
module ProxyRoutes {
  import opened Proxy
  import opened ProxyLaws
  import opened ProxyOrder
  import opened Words

  datatype Maybe<T> = None | Some(value: T)

  function Find<K, V>(m: map<K, V>, k: K): Maybe<V> {
    if k in m then Some(m[k]) else None
  }

  // ---------------------------------------------------------------------------------------------
  // The log of everything that reached the proxy, in order

  datatype Entry =
    | ClientPacket(arrival: Arrival)
    | ServerPacket(arrival: Arrival)
    | PeerSet(key: LinkKey, config: LinkConfig)
    | DefaultSet(upstream: bool, config: LinkConfig)

  predicate IsPacket(e: Entry) {
    e.ClientPacket? || e.ServerPacket?
  }

  function Packets(arrivals: seq<Arrival>, fromClient: bool): (es: seq<Entry>)
    ensures |es| == |arrivals|
    ensures forall i :: 0 <= i < |es| ==>
              es[i] == if fromClient then ClientPacket(arrivals[i]) else ServerPacket(arrivals[i])
  {
    seq(|arrivals|, i requires 0 <= i < |arrivals| =>
      if fromClient then ClientPacket(arrivals[i]) else ServerPacket(arrivals[i]))
  }

  /** A tick takes the datagrams of the clients first. */
  function Entries(e: Event): seq<Entry> {
    match e
    case Ticks(t) => Packets(t.fromClients, true) + Packets(t.fromServer, false)
    case PeerConfigured(key, config) => [PeerSet(key, config)]
    case DefaultConfigured(upstream, config) => [DefaultSet(upstream, config)]
  }

  function Log(events: seq<Event>): seq<Entry> {
    if events == [] then [] else Log(events[..|events| - 1]) + Entries(events[|events| - 1])
  }

  /** The sender of the newest Hello of the session. */
  function SessionEndpoint(log: seq<Entry>, session: U32): Maybe<Endpoint> {
    if log == [] then None
    else
      var e := log[|log| - 1];
      if e.ClientPacket? && e.arrival.datagram.message == Hello(session) then Some(e.arrival.datagram.sender)
      else SessionEndpoint(log[..|log| - 1], session)
  }

  /**
   The sender of the peer's newest datagram, or the endpoint of the session whose Welcome named the peer, whichever is
   later.
   */
  function PeerEndpoint(log: seq<Entry>, peer: U16): Maybe<Endpoint> {
    if log == [] then None
    else
      var init, e := log[..|log| - 1], log[|log| - 1];
      if e.ClientPacket? && !e.arrival.datagram.message.Unparsed? && e.arrival.datagram.peerId == peer && peer != 0 then
        Some(e.arrival.datagram.sender)
      else if e.ServerPacket? && e.arrival.datagram.message.Welcome?
              && e.arrival.datagram.message.assignedPeerId == peer
              && SessionEndpoint(init, e.arrival.datagram.message.welcomedSession).Some? then
        SessionEndpoint(init, e.arrival.datagram.message.welcomedSession)
      else PeerEndpoint(init, peer)
  }

  /** What is to be relayed: on which link, to whom. */
  datatype Job = Job(link: LinkKey, destination: Endpoint)

  /** The relay an entry asks for, after `log`: every parsed client datagram, and server datagrams with a route. */
  function JobOf(log: seq<Entry>, e: Entry, server: Endpoint): Maybe<Job> {
    match e
    case ClientPacket(a) =>
      if a.datagram.message.Unparsed? then None else Some(Job(LinkKey(true, a.datagram.peerId), server))
    case ServerPacket(a) =>
      (match a.datagram.message
       case Unparsed => None
       case Welcome(session, peer) => JobTo(peer, SessionEndpoint(log, session))
       case _ => JobTo(a.datagram.peerId, PeerEndpoint(log, a.datagram.peerId)))
    case _ => None
  }

  function JobTo(peer: U16, endpoint: Maybe<Endpoint>): Maybe<Job> {
    if endpoint.Some? then Some(Job(LinkKey(false, peer), endpoint.value)) else None
  }

  /** The default of a direction: as last set. */
  function DefaultAt(setup: Setup, log: seq<Entry>, upstream: bool): LinkConfig {
    if log == [] then (if upstream then setup.upstream else setup.downstream)
    else
      var e := log[|log| - 1];
      if e.DefaultSet? && e.upstream == upstream then e.config else DefaultAt(setup, log[..|log| - 1], upstream)
  }

  /** The configuration of a link: as last set for it, else the default in force when its first relay made it. */
  function ConfigAt(setup: Setup, log: seq<Entry>, key: LinkKey): Maybe<LinkConfig> {
    if log == [] then None
    else
      var init, e := log[..|log| - 1], log[|log| - 1];
      if e.PeerSet? && e.key == key then Some(e.config)
      else
        var job, before := JobOf(init, e, setup.server), ConfigAt(setup, init, key);
        if before.None? && job.Some? && job.value.link == key then Some(DefaultAt(setup, init, key.upstream))
        else before
  }

  function InForce(setup: Setup, log: seq<Entry>, key: LinkKey): LinkConfig {
    var c := ConfigAt(setup, log, key);
    if c.Some? then c.value else DefaultAt(setup, log, key.upstream)
  }

  // ---------------------------------------------------------------------------------------------
  // The state agrees with the log

  ghost predicate Agrees(s: State, setup: Setup, log: seq<Entry>) {
    RoutesAgree(s, log) && ConfigsAgree(s, setup, log)
  }

  ghost predicate RoutesAgree(s: State, log: seq<Entry>) {
    (forall session :: Find(s.sessionRoutes, session) == SessionEndpoint(log, session))
    && forall peer :: Find(s.peerRoutes, peer) == PeerEndpoint(log, peer)
  }

  ghost predicate ConfigsAgree(s: State, setup: Setup, log: seq<Entry>) {
    (forall up :: DefaultConfig(s, up) == DefaultAt(setup, log, up))
    && forall key :: ConfigOf(s, key) == ConfigAt(setup, log, key)
  }

  function ConfigOf(s: State, key: LinkKey): Maybe<LinkConfig> {
    if key in s.links then Some(s.links[key].config) else None
  }

  // ---------------------------------------------------------------------------------------------
  // The fate of one entry

  /** What an entry did: nothing, or one roll of the dice on a link, with its counts and the relays it queued. */
  datatype Fate = NoFate | Rolled(link: LinkKey, delta: Delta, queued: seq<Relay>)

  predicate Hits(pct: real, roll: real) {
    0.0 < pct && roll < pct
  }

  /**
   The fate of an entry after `log`, when the queue is `busy` or empty and `order` is the next order number: nothing
   without a job. With one, it is lost exactly on the loss roll; otherwise it is queued on the link of its job, with
   its destination and payload, at once if the reorder roll finds a queue to overtake and after the delay if not, and
   once more a microsecond later exactly on the duplicate roll.
   */
  predicate FateOk(setup: Setup, log: seq<Entry>, e: Entry, nowUs: nat, busy: bool, order: nat, f: Fate) {
    var job := JobOf(log, e, setup.server);
    if job.None? then f.NoFate?
    else
      && f.Rolled?
      && f.link == job.value.link
      && var c := InForce(setup, log, f.link);
      var dice := e.arrival.dice;
      var lost := Hits(c.lossPct, dice.loss);
      var twice := !lost && Hits(c.duplicatePct, dice.duplicate);
      var overtakes := !lost && Hits(c.reorderPct, dice.reorder) && busy;
      && f.delta == Delta(1, 0, if lost then 1 else 0, if twice then 1 else 0, if overtakes then 1 else 0)
      && |f.queued| == (if lost then 0 else if twice then 2 else 1)
      && forall n :: 0 <= n < |f.queued| ==>
           f.queued[n] == Relay(f.link, (if overtakes then nowUs else nowUs + DelayUs(c, dice)) + n, order + n,
                                job.value.destination, e.arrival.datagram.payload)
  }

  function FateQueued(f: Fate): seq<Relay> {
    if f.Rolled? then f.queued else []
  }

  function AllQueued(fs: seq<Fate>): seq<Relay> {
    if fs == [] then [] else AllQueued(fs[..|fs| - 1]) + FateQueued(fs[|fs| - 1])
  }

  const NO_DELTA := Delta(0, 0, 0, 0, 0)

  function Sum(a: Delta, b: Delta): Delta {
    Delta(a.received + b.received, a.forwarded + b.forwarded, a.dropped + b.dropped, a.duplicated + b.duplicated,
          a.reordered + b.reordered)
  }

  /** What a fate adds to the counts of a link, and of a direction. */
  function FateOn(f: Fate, key: LinkKey): Delta {
    if f.Rolled? && f.link == key then f.delta else NO_DELTA
  }

  function FateTowards(f: Fate, upstream: bool): Delta {
    if f.Rolled? && f.link.upstream == upstream then f.delta else NO_DELTA
  }

  function LinkTally(fs: seq<Fate>, key: LinkKey): Delta {
    if fs == [] then NO_DELTA else Sum(LinkTally(fs[..|fs| - 1], key), FateOn(fs[|fs| - 1], key))
  }

  function Tally(fs: seq<Fate>, upstream: bool): Delta {
    if fs == [] then NO_DELTA else Sum(Tally(fs[..|fs| - 1], upstream), FateTowards(fs[|fs| - 1], upstream))
  }

  /** The counters apart from the queue length. */
  function Counts(st: Stats): Delta {
    Delta(st.received, st.forwarded, st.dropped, st.duplicated, st.reordered)
  }

  // ---------------------------------------------------------------------------------------------
  // One entry

  function Apply(s: State, e: Entry, nowUs: nat, server: Endpoint): State {
    match e
    case ClientPacket(a) => FromClient(s, a, nowUs, server)
    case ServerPacket(a) => FromServer(s, a, nowUs)
    case PeerSet(key, config) => WithPeerConfig(s, key, config)
    case DefaultSet(upstream, config) => WithDefaultConfig(s, upstream, config)
  }

  /** What one entry does to queue and counters. */
  ghost predicate Does(s: State, t: State, f: Fate) {
    && t.scheduled == s.scheduled + FateQueued(f)
    && t.orderCounter == s.orderCounter + |FateQueued(f)|
    && (forall key :: Counts(LinkOf(t, key).stats) == Sum(Counts(LinkOf(s, key).stats), FateOn(f, key)))
    && forall up :: Counts(Aggregate(t, up)) == Sum(Counts(Aggregate(s, up)), FateTowards(f, up))
  }

  lemma SumNothing(d: Delta)
    ensures Sum(d, NO_DELTA) == d == Sum(NO_DELTA, d)
  {
  }

  lemma NothingDoes(s: State, t: State)
    requires t.links == s.links && t.upstream == s.upstream && t.downstream == s.downstream
    requires t.scheduled == s.scheduled && t.orderCounter == s.orderCounter
    ensures Does(s, t, NoFate)
  {
    hide Sum;
    forall key
      ensures Counts(LinkOf(t, key).stats) == Sum(Counts(LinkOf(s, key).stats), FateOn(NoFate, key))
    {
      SumNothing(Counts(LinkOf(s, key).stats));
    }
    forall up
      ensures Counts(Aggregate(t, up)) == Sum(Counts(Aggregate(s, up)), FateTowards(NoFate, up))
    {
      SumNothing(Counts(Aggregate(s, up)));
    }
  }

  lemma PlusCounts(st: Stats, d: Delta)
    ensures Counts(Plus(st, d)) == Sum(Counts(st), d)
  {
  }

  lemma CountedCounts(s: State, at: LinkKey, d: Delta, key: LinkKey, up: bool)
    ensures var t := Counted(s, at, d);
      Counts(LinkOf(t, key).stats) == Sum(Counts(LinkOf(s, key).stats), if key == at then d else NO_DELTA)
      && Counts(Aggregate(t, up)) == Sum(Counts(Aggregate(s, up)), if up == at.upstream then d else NO_DELTA)
  {
    hide Counts, Plus, Sum;
    PlusCounts(LinkOf(s, at).stats, d);
    PlusCounts(Aggregate(s, up), d);
    SumNothing(Counts(LinkOf(s, key).stats));
    SumNothing(Counts(Aggregate(s, up)));
  }

  lemma QueueKeepsCounts(s: State, rs: seq<Relay>, key: LinkKey, up: bool)
    ensures Counts(LinkOf(WithQueue(s, rs), key).stats) == Counts(LinkOf(s, key).stats)
    ensures Counts(Aggregate(WithQueue(s, rs), up)) == Counts(Aggregate(s, up))
  {
    hide InFlight, InFlightOf;
  }

  lemma SameBooksCount(s: State, t: State, key: LinkKey, up: bool)
    requires t.links == s.links && t.upstream == s.upstream && t.downstream == s.downstream
    ensures Counts(LinkOf(t, key).stats) == Counts(LinkOf(s, key).stats)
    ensures Counts(Aggregate(t, up)) == Counts(Aggregate(s, up))
  {
  }

  lemma DecidedCounts(
    s: State, at: LinkKey, destination: Endpoint, payload: seq<U8>, nowUs: nat, dice: Dice, key: LinkKey, up: bool
  )
    ensures var d := DecideFor(s, at, destination, payload, nowUs, dice).delta;
      var t := Scheduled(s, at, destination, payload, nowUs, dice);
      Counts(LinkOf(t, key).stats) == Sum(Counts(LinkOf(s, key).stats), if key == at then d else NO_DELTA)
      && Counts(Aggregate(t, up)) == Sum(Counts(Aggregate(s, up)), if up == at.upstream then d else NO_DELTA)
  {
    hide DecideFor, WithQueue, Counted, Sum, Counts, LinkOf, Aggregate;
    var o := DecideFor(s, at, destination, payload, nowUs, dice);
    var counted := Counted(s, at, o.delta);
    var after := counted.(scheduled := s.scheduled + o.added, orderCounter := s.orderCounter + |o.added|);
    CountedCounts(s, at, o.delta, key, up);
    SameBooksCount(counted, after, key, up);
    QueueKeepsCounts(after, after.scheduled, key, up);
  }

  lemma DecidedDoes(s: State, key: LinkKey, destination: Endpoint, payload: seq<U8>, nowUs: nat, dice: Dice)
    ensures var o := DecideFor(s, key, destination, payload, nowUs, dice);
      Does(s, Scheduled(s, key, destination, payload, nowUs, dice), Rolled(key, o.delta, o.added))
  {
    hide DecideFor, Sum, Counts, LinkOf, Aggregate;
    var o := DecideFor(s, key, destination, payload, nowUs, dice);
    var f, t := Rolled(key, o.delta, o.added), Scheduled(s, key, destination, payload, nowUs, dice);
    assert t.scheduled == s.scheduled + FateQueued(f) && t.orderCounter == s.orderCounter + |FateQueued(f)| by {
      hide WithQueue, InFlight, InFlightOf;
    }
    hide Scheduled;
    forall k
      ensures Counts(LinkOf(t, k).stats) == Sum(Counts(LinkOf(s, k).stats), FateOn(f, k))
    {
      DecidedCounts(s, key, destination, payload, nowUs, dice, k, true);
    }
    forall up
      ensures Counts(Aggregate(t, up)) == Sum(Counts(Aggregate(s, up)), FateTowards(f, up))
    {
      DecidedCounts(s, key, destination, payload, nowUs, dice, key, up);
    }
  }

  /** The dice decide the fate. */
  lemma DecideIsFate(
    setup: Setup, log: seq<Entry>, e: Entry, job: Job, config: LinkConfig, nowUs: nat, busy: bool, order: nat
  )
    requires IsPacket(e) && JobOf(log, e, setup.server) == Some(job) && config == InForce(setup, log, job.link)
    ensures var o := Decide(config, e.arrival.dice, nowUs, !busy,
                            Relay(job.link, nowUs, order, job.destination, e.arrival.datagram.payload));
      FateOk(setup, log, e, nowUs, busy, order, Rolled(job.link, o.delta, o.added))
  {
    hide JobOf, InForce, DelayUs;
  }

  /** Scheduling the relay of a job is its fate. */
  lemma ScheduledDoes(s: State, setup: Setup, log: seq<Entry>, e: Entry, job: Job, nowUs: nat) returns (f: Fate)
    requires IsPacket(e) && JobOf(log, e, setup.server) == Some(job)
    requires LinkOf(s, job.link).config == InForce(setup, log, job.link)
    ensures FateOk(setup, log, e, nowUs, s.scheduled != [], s.orderCounter, f) && f.Rolled? && f.link == job.link
    ensures Does(s, Scheduled(s, job.link, job.destination, e.arrival.datagram.payload, nowUs, e.arrival.dice), f)
  {
    hide JobOf, InForce, Decide, Does, Scheduled, FateOk, LinkOf;
    var a := e.arrival;
    var o := DecideFor(s, job.link, job.destination, a.datagram.payload, nowUs, a.dice);
    f := Rolled(job.link, o.delta, o.added);
    DecidedDoes(s, job.link, job.destination, a.datagram.payload, nowUs, a.dice);
    DecideIsFate(setup, log, e, job, LinkOf(s, job.link).config, nowUs, s.scheduled != [], s.orderCounter);
  }

  // ---------------------------------------------------------------------------------------------
  // Routes and configurations, entry by entry

  lemma ScheduledKeeps(s: State, at: LinkKey, destination: Endpoint, payload: seq<U8>, nowUs: nat, dice: Dice)
    ensures var t := Scheduled(s, at, destination, payload, nowUs, dice);
      t.sessionRoutes == s.sessionRoutes && t.peerRoutes == s.peerRoutes
      && (forall up :: DefaultConfig(t, up) == DefaultConfig(s, up))
      && forall key :: ConfigOf(t, key) == if key == at then Some(LinkOf(s, at).config) else ConfigOf(s, key)
  {
    hide Decide, InFlight, InFlightOf, Plus;
  }

  /** The routes after an entry, field by field. */
  function SessionsAfter(s: State, e: Entry): map<U32, Endpoint> {
    if e.ClientPacket? && e.arrival.datagram.message.Hello?
    then s.sessionRoutes[e.arrival.datagram.message.sessionId := e.arrival.datagram.sender] else s.sessionRoutes
  }

  function PeersAfter(s: State, e: Entry): map<U16, Endpoint> {
    if e.ClientPacket? && !e.arrival.datagram.message.Unparsed? && e.arrival.datagram.peerId != 0 then
      s.peerRoutes[e.arrival.datagram.peerId := e.arrival.datagram.sender]
    else if e.ServerPacket? && e.arrival.datagram.message.Welcome?
            && e.arrival.datagram.message.welcomedSession in s.sessionRoutes then
      s.peerRoutes[e.arrival.datagram.message.assignedPeerId
                   := s.sessionRoutes[e.arrival.datagram.message.welcomedSession]]
    else s.peerRoutes
  }

  /** An entry with a job learns its route first and then schedules the job; any other schedules nothing. */
  lemma ApplyIs(s: State, setup: Setup, log: seq<Entry>, e: Entry, nowUs: nat)
    requires IsPacket(e) && RoutesAgree(s, log)
    ensures var learnt := s.(sessionRoutes := SessionsAfter(s, e), peerRoutes := PeersAfter(s, e));
      var job := JobOf(log, e, setup.server);
      Apply(s, e, nowUs, setup.server)
      == if job.None? then learnt
         else Scheduled(learnt, job.value.link, job.value.destination, e.arrival.datagram.payload, nowUs,
                        e.arrival.dice)
  {
    hide Scheduled, SessionEndpoint, PeerEndpoint;
    var d := e.arrival.datagram;
    if e.ServerPacket? {
      if d.message.Welcome? {
        assert Find(s.sessionRoutes, d.message.welcomedSession) == SessionEndpoint(log, d.message.welcomedSession);
      } else {
        assert Find(s.peerRoutes, d.peerId) == PeerEndpoint(log, d.peerId);
      }
    }
  }

  lemma RoutesLearnt(s: State, log: seq<Entry>, e: Entry)
    requires RoutesAgree(s, log)
    ensures RoutesAgree(s.(sessionRoutes := SessionsAfter(s, e), peerRoutes := PeersAfter(s, e)), log + [e])
  {
    assert (log + [e])[..|log|] == log;
    forall session
      ensures Find(SessionsAfter(s, e), session) == SessionEndpoint(log + [e], session)
    {
      assert Find(s.sessionRoutes, session) == SessionEndpoint(log, session);
    }
    forall peer
      ensures Find(PeersAfter(s, e), peer) == PeerEndpoint(log + [e], peer)
    {
      assert Find(s.peerRoutes, peer) == PeerEndpoint(log, peer);
      if e.ServerPacket? && e.arrival.datagram.message.Welcome? {
        var session := e.arrival.datagram.message.welcomedSession;
        assert Find(s.sessionRoutes, session) == SessionEndpoint(log, session);
      }
    }
  }

  /** The configurations after an entry. */
  lemma ConfigsAfter(s: State, t: State, setup: Setup, log: seq<Entry>, e: Entry)
    requires ConfigsAgree(s, setup, log) && IsPacket(e)
    requires forall up :: DefaultConfig(t, up) == DefaultConfig(s, up)
    requires var job := JobOf(log, e, setup.server);
      forall key :: ConfigOf(t, key)
                    == if job.Some? && key == job.value.link then Some(LinkOf(s, key).config) else ConfigOf(s, key)
    ensures ConfigsAgree(t, setup, log + [e])
  {
    hide JobOf;
    assert (log + [e])[..|log|] == log;
    forall key
      ensures ConfigOf(t, key) == ConfigAt(setup, log + [e], key)
    {
      assert ConfigOf(s, key) == ConfigAt(setup, log, key);
      assert DefaultConfig(s, key.upstream) == DefaultAt(setup, log, key.upstream);
    }
    forall up
      ensures DefaultConfig(t, up) == DefaultAt(setup, log + [e], up)
    {
      assert DefaultConfig(s, up) == DefaultAt(setup, log, up);
    }
  }

  lemma InForceIs(s: State, setup: Setup, log: seq<Entry>, key: LinkKey)
    requires ConfigsAgree(s, setup, log)
    ensures LinkOf(s, key).config == InForce(setup, log, key)
  {
    hide DefaultAt, ConfigAt;
    assert ConfigOf(s, key) == ConfigAt(setup, log, key);
    assert DefaultConfig(s, key.upstream) == DefaultAt(setup, log, key.upstream);
  }

  /** One datagram: its fate, and a state that agrees with the longer log. */
  lemma PacketStep(s: State, setup: Setup, log: seq<Entry>, e: Entry, nowUs: nat) returns (f: Fate)
    requires Agrees(s, setup, log) && IsPacket(e)
    ensures FateOk(setup, log, e, nowUs, s.scheduled != [], s.orderCounter, f)
    ensures Does(s, Apply(s, e, nowUs, setup.server), f) && Agrees(Apply(s, e, nowUs, setup.server), setup, log + [e])
  {
    hide Apply, Scheduled, JobOf, RoutesAgree, ConfigsAgree, SessionsAfter, PeersAfter, Does, InForce, LinkOf;
    var learnt := s.(sessionRoutes := SessionsAfter(s, e), peerRoutes := PeersAfter(s, e));
    var job, t := JobOf(log, e, setup.server), Apply(s, e, nowUs, setup.server);
    ApplyIs(s, setup, log, e, nowUs);
    RoutesLearnt(s, log, e);
    SameBooks(s, learnt);
    if job.None? {
      f := NoFate;
      assert FateOk(setup, log, e, nowUs, s.scheduled != [], s.orderCounter, f);
      hide FateOk;
      NothingDoes(s, learnt);
      ConfigsAfter(s, learnt, setup, log, e);
    } else {
      hide FateOk;
      var link, dest, payload, dice :=
        job.value.link, job.value.destination, e.arrival.datagram.payload, e.arrival.dice;
      InForceIs(s, setup, log, link);
      f := ScheduledDoes(learnt, setup, log, e, job.value, nowUs);
      SameStartDoes(s, learnt, t, f);
      ScheduledKeeps(learnt, link, dest, payload, nowUs, dice);
      RoutesOnly(learnt, t, log + [e]);
      ConfigsAfter(s, t, setup, log, e);
    }
  }

  lemma SameBooks(s: State, t: State)
    requires t.links == s.links && t.defaultUpstream == s.defaultUpstream
    requires t.defaultDownstream == s.defaultDownstream
    ensures forall key :: LinkOf(t, key) == LinkOf(s, key) && ConfigOf(t, key) == ConfigOf(s, key)
    ensures forall up :: DefaultConfig(t, up) == DefaultConfig(s, up)
  {
  }

  lemma RoutesOnly(s: State, t: State, log: seq<Entry>)
    requires RoutesAgree(s, log) && t.sessionRoutes == s.sessionRoutes && t.peerRoutes == s.peerRoutes
    ensures RoutesAgree(t, log)
  {
  }

  lemma SameStartDoes(s: State, u: State, t: State, f: Fate)
    requires u.links == s.links && u.upstream == s.upstream && u.downstream == s.downstream
    requires u.scheduled == s.scheduled && u.orderCounter == s.orderCounter
    requires u.defaultUpstream == s.defaultUpstream && u.defaultDownstream == s.defaultDownstream
    requires Does(u, t, f)
    ensures Does(s, t, f)
  {
    hide Sum, Counts;
    SameBooks(s, u);
    assert forall up :: Aggregate(s, up) == Aggregate(u, up);
  }

  lemma ConfigStep(s: State, setup: Setup, log: seq<Entry>, e: Entry, nowUs: nat)
    requires Agrees(s, setup, log) && !IsPacket(e)
    ensures Agrees(Apply(s, e, nowUs, setup.server), setup, log + [e])
  {
    var t := Apply(s, e, nowUs, setup.server);
    assert (log + [e])[..|log|] == log;
    RoutesUnlearnt(s, t, log, e);
    forall key
      ensures ConfigOf(t, key) == ConfigAt(setup, log + [e], key)
    {
      assert ConfigOf(s, key) == ConfigAt(setup, log, key);
    }
    forall up
      ensures DefaultConfig(t, up) == DefaultAt(setup, log + [e], up)
    {
      assert DefaultConfig(s, up) == DefaultAt(setup, log, up);
    }
  }

  lemma RoutesUnlearnt(s: State, t: State, log: seq<Entry>, e: Entry)
    requires RoutesAgree(s, log) && !IsPacket(e)
    requires t.sessionRoutes == s.sessionRoutes && t.peerRoutes == s.peerRoutes
    ensures RoutesAgree(t, log + [e])
  {
    RoutesLearnt(s, log, e);
  }

  // ---------------------------------------------------------------------------------------------
  // The datagrams of a tick

  function Fold(s: State, es: seq<Entry>, nowUs: nat, server: Endpoint): State {
    if es == [] then s else Apply(Fold(s, es[..|es| - 1], nowUs, server), es[|es| - 1], nowUs, server)
  }

  lemma {:induction false} FoldConcat(s: State, a: seq<Entry>, b: seq<Entry>, nowUs: nat, server: Endpoint)
    ensures Fold(s, a + b, nowUs, server) == Fold(Fold(s, a, nowUs, server), b, nowUs, server)
  {
    hide Apply;
    if b == [] {
      assert a + b == a;
    } else {
      FoldConcat(s, a, b[..|b| - 1], nowUs, server);
      assert (a + b)[..|a + b| - 1] == a + b[..|b| - 1];
    }
  }

  lemma {:induction false} ClientsFold(s: State, arrivals: seq<Arrival>, nowUs: nat, server: Endpoint)
    ensures FromClients(s, arrivals, nowUs, server) == Fold(s, Packets(arrivals, true), nowUs, server)
  {
    hide FromClient;
    if arrivals != [] {
      ClientsFold(s, arrivals[..|arrivals| - 1], nowUs, server);
      assert Packets(arrivals, true)[..|arrivals| - 1] == Packets(arrivals[..|arrivals| - 1], true);
    }
  }

  lemma {:induction false} ServersFold(s: State, arrivals: seq<Arrival>, nowUs: nat, server: Endpoint)
    ensures FromServers(s, arrivals, nowUs) == Fold(s, Packets(arrivals, false), nowUs, server)
  {
    hide FromServer;
    if arrivals != [] {
      ServersFold(s, arrivals[..|arrivals| - 1], nowUs, server);
      assert Packets(arrivals, false)[..|arrivals| - 1] == Packets(arrivals[..|arrivals| - 1], false);
    }
  }

  lemma ArrivedFolds(s: State, t: Tick, server: Endpoint)
    ensures Arrived(s, t, server) == Fold(s, Entries(Ticks(t)), t.nowUs, server)
  {
    hide Fold, FromClients, FromServers;
    ClientsFold(s, t.fromClients, t.nowUs, server);
    ServersFold(FromClients(s, t.fromClients, t.nowUs, server), t.fromServer, t.nowUs, server);
    FoldConcat(s, Packets(t.fromClients, true), Packets(t.fromServer, false), t.nowUs, server);
  }

  /** The fates of the entries of a tick, one after the other. */
  ghost predicate FatesOk(setup: Setup, log: seq<Entry>, es: seq<Entry>, nowUs: nat, s: State, fs: seq<Fate>) {
    |fs| == |es|
    && forall k :: 0 <= k < |es| ==>
         FateOk(setup, log + es[..k], es[k], nowUs, s.scheduled + AllQueued(fs[..k]) != [],
                s.orderCounter + |AllQueued(fs[..k])|, fs[k])
  }

  ghost predicate DoesAll(s: State, t: State, fs: seq<Fate>) {
    && t.scheduled == s.scheduled + AllQueued(fs)
    && t.orderCounter == s.orderCounter + |AllQueued(fs)|
    && (forall key :: Counts(LinkOf(t, key).stats) == Sum(Counts(LinkOf(s, key).stats), LinkTally(fs, key)))
    && forall up :: Counts(Aggregate(t, up)) == Sum(Counts(Aggregate(s, up)), Tally(fs, up))
  }

  lemma SumAssoc(a: Delta, b: Delta, c: Delta)
    ensures Sum(Sum(a, b), c) == Sum(a, Sum(b, c))
  {
  }

  lemma DoesMore(s: State, t: State, u: State, fs: seq<Fate>, f: Fate)
    requires DoesAll(s, t, fs) && Does(t, u, f)
    ensures DoesAll(s, u, fs + [f])
  {
    hide Sum, Counts, FateOn, FateTowards, LinkOf, Aggregate;
    assert (fs + [f])[..|fs|] == fs;
    forall key
      ensures Counts(LinkOf(u, key).stats) == Sum(Counts(LinkOf(s, key).stats), LinkTally(fs + [f], key))
    {
      SumAssoc(Counts(LinkOf(s, key).stats), LinkTally(fs, key), FateOn(f, key));
    }
    forall up
      ensures Counts(Aggregate(u, up)) == Sum(Counts(Aggregate(s, up)), Tally(fs + [f], up))
    {
      SumAssoc(Counts(Aggregate(s, up)), Tally(fs, up), FateTowards(f, up));
    }
  }

  lemma DoesNothing(s: State)
    ensures DoesAll(s, s, [])
  {
    hide Sum, Counts, LinkOf, Aggregate;
    assert AllQueued([]) == [];
    forall key
      ensures Counts(LinkOf(s, key).stats) == Sum(Counts(LinkOf(s, key).stats), LinkTally([], key))
    {
      SumNothing(Counts(LinkOf(s, key).stats));
    }
    forall up
      ensures Counts(Aggregate(s, up)) == Sum(Counts(Aggregate(s, up)), Tally([], up))
    {
      SumNothing(Counts(Aggregate(s, up)));
    }
  }

  ghost predicate Folded(s: State, setup: Setup, log: seq<Entry>, es: seq<Entry>, nowUs: nat, fs: seq<Fate>) {
    var t := Fold(s, es, nowUs, setup.server);
    FatesOk(setup, log, es, nowUs, s, fs) && DoesAll(s, t, fs) && Agrees(t, setup, log + es)
  }

  lemma {:induction false} FoldFates(s: State, setup: Setup, log: seq<Entry>, es: seq<Entry>, nowUs: nat)
    returns (fs: seq<Fate>)
    requires Agrees(s, setup, log) && forall e :: e in es ==> IsPacket(e)
    ensures Folded(s, setup, log, es, nowUs, fs)
  {
    hide Agrees, Folded, IsPacket;
    if es == [] {
      fs := [];
      NothingFolded(s, setup, log, nowUs);
    } else {
      var init := es[..|es| - 1];
      assert forall x :: x in init ==> x in es;
      assert es[|es| - 1] in es;
      fs := FoldFates(s, setup, log, init, nowUs);
      var f := FoldMore(s, setup, log, es, nowUs, fs);
      fs := fs + [f];
    }
  }

  lemma NothingFolded(s: State, setup: Setup, log: seq<Entry>, nowUs: nat)
    requires Agrees(s, setup, log)
    ensures Folded(s, setup, log, [], nowUs, [])
  {
    hide Agrees, DoesAll;
    DoesNothing(s);
    assert log + [] == log;
  }

  lemma FoldMore(s: State, setup: Setup, log: seq<Entry>, es: seq<Entry>, nowUs: nat, fs: seq<Fate>) returns (f: Fate)
    requires es != [] && IsPacket(es[|es| - 1]) && Folded(s, setup, log, es[..|es| - 1], nowUs, fs)
    ensures Folded(s, setup, log, es, nowUs, fs + [f])
  {
    hide Apply, Agrees, FateOk, Does, DoesAll, FatesOk, AllQueued, IsPacket;
    var init, e := es[..|es| - 1], es[|es| - 1];
    var t := Fold(s, init, nowUs, setup.server);
    DoesAllQueues(s, t, fs);
    f := PacketStep(t, setup, log + init, e, nowUs);
    DoesMore(s, t, Apply(t, e, nowUs, setup.server), fs, f);
    assert log + init + [e] == log + es;
    FatesMore(setup, log, es, nowUs, s, fs, f);
  }

  lemma DoesAllQueues(s: State, t: State, fs: seq<Fate>)
    requires DoesAll(s, t, fs)
    ensures t.scheduled == s.scheduled + AllQueued(fs) && t.orderCounter == s.orderCounter + |AllQueued(fs)|
  {
  }

  lemma FatesMore(setup: Setup, log: seq<Entry>, es: seq<Entry>, nowUs: nat, s: State, fs: seq<Fate>, f: Fate)
    requires es != [] && FatesOk(setup, log, es[..|es| - 1], nowUs, s, fs)
    requires FateOk(setup, log + es[..|es| - 1], es[|es| - 1], nowUs, s.scheduled + AllQueued(fs) != [],
                    s.orderCounter + |AllQueued(fs)|, f)
    ensures FatesOk(setup, log, es, nowUs, s, fs + [f])
  {
    hide FateOk, AllQueued;
    var n := |es| - 1;
    forall k | 0 <= k <= n
      ensures FateOk(setup, log + es[..k], es[k], nowUs, s.scheduled + AllQueued((fs + [f])[..k]) != [],
                     s.orderCounter + |AllQueued((fs + [f])[..k])|, (fs + [f])[k])
    {
      assert (fs + [f])[..k] == fs[..k];
      if k < n {
        assert es[..n][..k] == es[..k] && es[..n][k] == es[k];
      } else {
        assert fs[..k] == fs;
      }
    }
  }

  // ---------------------------------------------------------------------------------------------
  // Whole runs

  lemma {:induction false} ForwardCounts(s: State, rs: seq<Relay>, key: LinkKey, up: bool)
    ensures Counts(LinkOf(CountedForward(s, rs), key).stats)
         == Sum(Counts(LinkOf(s, key).stats), Delta(0, InFlight(rs, key), 0, 0, 0))
    ensures Counts(Aggregate(CountedForward(s, rs), up))
         == Sum(Counts(Aggregate(s, up)), Delta(0, InFlightOf(rs, up), 0, 0, 0))
  {
    hide Counted, LinkOf, Aggregate, Counts;
    if rs != [] {
      var init := rs[..|rs| - 1];
      ForwardCounts(s, init, key, up);
      CountedCounts(CountedForward(s, init), rs[|rs| - 1].link, Delta(0, 1, 0, 0, 0), key, up);
    }
  }

  /** Forwarding changes no route and, every relay having its link, no configuration. */
  lemma {:induction false} ForwardAgrees(s: State, setup: Setup, log: seq<Entry>, rs: seq<Relay>)
    requires Agrees(s, setup, log) && Linked(s, rs)
    ensures Agrees(CountedForward(s, rs), setup, log) && s.links.Keys <= CountedForward(s, rs).links.Keys
  {
    if rs != [] {
      hide Counted;
      var init, r := rs[..|rs| - 1], rs[|rs| - 1];
      assert forall x :: x in init ==> x in rs;
      assert r in rs;
      ForwardAgrees(s, setup, log, init);
      CountedAgrees(CountedForward(s, init), setup, log, r.link, Delta(0, 1, 0, 0, 0));
    }
  }

  lemma CountedAgrees(s: State, setup: Setup, log: seq<Entry>, key: LinkKey, d: Delta)
    requires Agrees(s, setup, log) && key in s.links
    ensures Agrees(Counted(s, key, d), setup, log) && s.links.Keys <= Counted(s, key, d).links.Keys
  {
    hide SessionEndpoint, PeerEndpoint, DefaultAt, ConfigAt, Plus;
    var t := Counted(s, key, d);
    assert forall k :: ConfigOf(t, k) == ConfigOf(s, k);
    assert forall up :: DefaultConfig(t, up) == DefaultConfig(s, up);
  }

  lemma QueueAgrees(s: State, setup: Setup, log: seq<Entry>, left: seq<Relay>)
    requires Agrees(s, setup, log)
    ensures Agrees(WithQueue(s.(scheduled := left), left), setup, log)
  {
    hide SessionEndpoint, PeerEndpoint, DefaultAt, ConfigAt, InFlight, InFlightOf;
    var t := WithQueue(s.(scheduled := left), left);
    assert forall k :: ConfigOf(t, k) == ConfigOf(s, k);
    assert forall up :: DefaultConfig(t, up) == DefaultConfig(s, up);
  }

  lemma TickAgrees(s: State, setup: Setup, log: seq<Entry>, t: Tick)
    requires Agrees(s, setup, log) && AllLinked(s)
    ensures Agrees(Ticked(s, t, setup.server), setup, log + Entries(Ticks(t)))
  {
    hide Agrees, Arrived, Sorted, Going, Staying, CountedForward, WithQueue, Linked, Fold;
    var es := Entries(Ticks(t));
    var arrived := Arrived(s, t, setup.server);
    ArrivedFolds(s, t, setup.server);
    assert forall e :: e in es ==> IsPacket(e);
    var _ := FoldFates(s, setup, log, es, t.nowUs);
    ArrivedLinked(s, t, setup.server);
    var going, staying :=
      Going(Sorted(arrived.scheduled), t.nowUs, t.sendOk), Staying(Sorted(arrived.scheduled), t.nowUs, t.sendOk);
    ForwardAgrees(arrived, setup, log + es, going);
    QueueAgrees(CountedForward(arrived, going), setup, log + es, staying);
  }

  lemma ArrivedLinked(s: State, t: Tick, server: Endpoint)
    requires AllLinked(s)
    ensures var arrived := Arrived(s, t, server);
      Linked(arrived, Going(Sorted(arrived.scheduled), t.nowUs, t.sendOk))
  {
    hide FromClients, FromServers, Sorted, Going;
    var arrived := Arrived(s, t, server);
    ClientsLinked(s, t.fromClients, t.nowUs, server);
    ServersLinked(FromClients(s, t.fromClients, t.nowUs, server), t.fromServer, t.nowUs);
    forall r | r in Going(Sorted(arrived.scheduled), t.nowUs, t.sendOk)
      ensures r in arrived.scheduled
    {
      SplitHas(Sorted(arrived.scheduled), t.nowUs, t.sendOk, r);
      SortedHas(arrived.scheduled, r);
    }
  }

  lemma FreshAgrees(setup: Setup)
    ensures Agrees(Fresh(setup.upstream, setup.downstream), setup, [])
  {
  }

  /**
   In every run the routes are those of the log, and so is every link's configuration: a peer's endpoint is the sender
   of its newest datagram or the endpoint of the session whose Welcome named it, whichever is later.
   */
  lemma {:induction false} RunAgrees(setup: Setup, events: seq<Event>)
    ensures Agrees(Run(setup, events), setup, Log(events))
  {
    hide Ticked, Agrees, Apply;
    if events == [] {
      FreshAgrees(setup);
    } else {
      var init, e := events[..|events| - 1], events[|events| - 1];
      RunAgrees(setup, init);
      match e
      case Ticks(t) =>
        RunAllLinked(setup, init);
        TickAgrees(Run(setup, init), setup, Log(init), t);
      case PeerConfigured(key, config) =>
        ConfigStep(Run(setup, init), setup, Log(init), PeerSet(key, config), 0);
        ConfigIsApply(Run(setup, init), setup, e, PeerSet(key, config));
      case DefaultConfigured(upstream, config) =>
        ConfigStep(Run(setup, init), setup, Log(init), DefaultSet(upstream, config), 0);
        ConfigIsApply(Run(setup, init), setup, e, DefaultSet(upstream, config));
    }
  }

  lemma ConfigIsApply(s: State, setup: Setup, event: Event, e: Entry)
    requires !event.Ticks? && Entries(event) == [e]
    ensures Step(s, setup, event) == Apply(s, e, 0, setup.server)
  {
  }

  /** What a tick does to queue and counters, given the fates of its datagrams and what it forwards. */
  ghost predicate TickDoes(s: State, t: State, fs: seq<Fate>, forwarded: seq<Relay>) {
    && multiset(forwarded) + multiset(t.scheduled) == multiset(s.scheduled + AllQueued(fs))
    && t.orderCounter == s.orderCounter + |AllQueued(fs)|
    && (forall key :: Counts(LinkOf(t, key).stats)
                      == Sum(Sum(Counts(LinkOf(s, key).stats), LinkTally(fs, key)),
                             Delta(0, InFlight(forwarded, key), 0, 0, 0)))
    && forall up :: Counts(Aggregate(t, up))
                    == Sum(Sum(Counts(Aggregate(s, up)), Tally(fs, up)),
                           Delta(0, InFlightOf(forwarded, up), 0, 0, 0))
  }

  /**
   The law of a tick, after any run.  Each of its datagrams, those of the clients first, meets the fate that the log of
   everything before it decides; what they queue, and what was queued, is forwarded or still queued; and the counters of
   every link and direction grow by the counts of the fates and by what was forwarded.
   */
  lemma TickRoutes(setup: Setup, events: seq<Event>, t: Tick) returns (fs: seq<Fate>)
    ensures var s := Run(setup, events);
      FatesOk(setup, Log(events), Entries(Ticks(t)), t.nowUs, s, fs)
      && TickDoes(s, Ticked(s, t, setup.server), fs, ForwardedBy(s, t, setup.server))
  {
    hide Run, Agrees, Arrived, Sorted, Going, Staying, CountedForward, WithQueue, Linked, Fold, FateOk, DoesAll,
         FatesOk, TickDoes;
    var s, es := Run(setup, events), Entries(Ticks(t));
    RunAgrees(setup, events);
    ArrivedFolds(s, t, setup.server);
    assert forall e :: e in es ==> IsPacket(e);
    fs := FoldFates(s, setup, Log(events), es, t.nowUs);
    ArrivedTicks(s, t, setup.server, fs);
  }

  lemma {:induction false} SplitSame(rs: seq<Relay>, nowUs: nat, sendOk: nat -> bool)
    ensures multiset(Going(rs, nowUs, sendOk)) + multiset(Staying(rs, nowUs, sendOk)) == multiset(rs)
  {
    if rs != [] {
      hide Goes, Going, Staying;
      SplitSame(rs[..|rs| - 1], nowUs, sendOk);
      SplitLast(rs, nowUs, sendOk);
      LastAdded(rs);
    }
  }

  lemma ArrivedTicks(s: State, t: Tick, server: Endpoint, fs: seq<Fate>)
    requires DoesAll(s, Arrived(s, t, server), fs)
    ensures TickDoes(s, Ticked(s, t, server), fs, ForwardedBy(s, t, server))
  {
    hide Arrived, Sorted, Going, Staying, CountedForward, WithQueue, Sum, Counts, LinkOf, Aggregate, LinkTally, Tally,
         InFlight, InFlightOf;
    var arrived, after := Arrived(s, t, server), Ticked(s, t, server);
    var sorted, going := Sorted(arrived.scheduled), ForwardedBy(s, t, server);
    var staying := Staying(sorted, t.nowUs, t.sendOk);
    SplitSame(sorted, t.nowUs, t.sendOk);
    SortedSame(arrived.scheduled);
    TickQueue(s, t, server);
    var counted := CountedForward(arrived, going);
    DoesAllQueues(s, arrived, fs);
    assert multiset(going) + multiset(after.scheduled) == multiset(s.scheduled + AllQueued(fs));
    forall key
      ensures Counts(LinkOf(after, key).stats)
           == Sum(Sum(Counts(LinkOf(s, key).stats), LinkTally(fs, key)), Delta(0, InFlight(going, key), 0, 0, 0))
    {
      ForwardCounts(arrived, going, key, true);
      SameBooksCount(counted, counted.(scheduled := staying), key, true);
      QueueKeepsCounts(counted.(scheduled := staying), staying, key, true);
    }
    forall up
      ensures Counts(Aggregate(after, up))
           == Sum(Sum(Counts(Aggregate(s, up)), Tally(fs, up)), Delta(0, InFlightOf(going, up), 0, 0, 0))
    {
      var key := LinkKey(up, 0);
      ForwardCounts(arrived, going, key, up);
      SameBooksCount(counted, counted.(scheduled := staying), key, up);
      QueueKeepsCounts(counted.(scheduled := staying), staying, key, up);
    }
  }

  lemma TickQueue(s: State, t: Tick, server: Endpoint)
    ensures Ticked(s, t, server).scheduled
         == Staying(Sorted(Arrived(s, t, server).scheduled), t.nowUs, t.sendOk)
    ensures Ticked(s, t, server).orderCounter == Arrived(s, t, server).orderCounter
  {
    hide Arrived, Sorted, Going, Staying;
    ForwardKeepsOrder(Arrived(s, t, server), ForwardedBy(s, t, server));
  }

  lemma {:induction false} ForwardKeepsOrder(s: State, rs: seq<Relay>)
    ensures CountedForward(s, rs).orderCounter == s.orderCounter
  {
    hide LinkOf, Plus;
    if rs != [] {
      ForwardKeepsOrder(s, rs[..|rs| - 1]);
    }
  }

  // ---------------------------------------------------------------------------------------------
  // What is sent on one link

  datatype Parcel = Parcel(destination: Endpoint, payload: seq<U8>)

  /** What an entry sends on a link: its payload, unless it is lost. */
  function SentBy(setup: Setup, log: seq<Entry>, e: Entry, key: LinkKey): seq<Parcel> {
    var job := JobOf(log, e, setup.server);
    if job.Some? && job.value.link == key && !Hits(InForce(setup, log, key).lossPct, e.arrival.dice.loss)
    then [Parcel(job.value.destination, e.arrival.datagram.payload)] else []
  }

  function Sent(setup: Setup, log: seq<Entry>, key: LinkKey): seq<Parcel> {
    if log == [] then []
    else Sent(setup, log[..|log| - 1], key) + SentBy(setup, log[..|log| - 1], log[|log| - 1], key)
  }

  function Parcels(rs: seq<Relay>): (ps: seq<Parcel>)
    ensures |ps| == |rs|
    ensures forall i :: 0 <= i < |rs| ==> ps[i] == Parcel(rs[i].destination, rs[i].payload)
  {
    seq(|rs|, i requires 0 <= i < |rs| => Parcel(rs[i].destination, rs[i].payload))
  }

  function FoldCopies(s: State, es: seq<Entry>, nowUs: nat, server: Endpoint, key: LinkKey): seq<Relay> {
    if es == [] then []
    else
      var init := es[..|es| - 1];
      FoldCopies(s, init, nowUs, server, key)
      + FirstCopy(Fold(s, init, nowUs, server), Fold(s, es, nowUs, server), key)
  }

  lemma {:induction false} FoldCopiesConcat(
    s: State, a: seq<Entry>, b: seq<Entry>, nowUs: nat, server: Endpoint, key: LinkKey
  )
    ensures FoldCopies(s, a + b, nowUs, server, key)
         == FoldCopies(s, a, nowUs, server, key) + FoldCopies(Fold(s, a, nowUs, server), b, nowUs, server, key)
  {
    hide FirstCopy, Fold;
    if b == [] {
      assert a + b == a;
    } else {
      var init := b[..|b| - 1];
      FoldCopiesConcat(s, a, init, nowUs, server, key);
      assert (a + b)[..|a + b| - 1] == a + init;
      FoldConcat(s, a, init, nowUs, server);
      FoldConcat(s, a, b, nowUs, server);
    }
  }

  lemma {:induction false} ClientCopiesFold(
    s: State, arrivals: seq<Arrival>, nowUs: nat, server: Endpoint, key: LinkKey
  )
    ensures ClientCopies(s, arrivals, nowUs, server, key) == FoldCopies(s, Packets(arrivals, true), nowUs, server, key)
  {
    hide FirstCopy, Fold, FromClients;
    if arrivals != [] {
      var init := arrivals[..|arrivals| - 1];
      ClientCopiesFold(s, init, nowUs, server, key);
      assert Packets(arrivals, true)[..|arrivals| - 1] == Packets(init, true);
      ClientsFold(s, init, nowUs, server);
      ClientsFold(s, arrivals, nowUs, server);
    }
  }

  lemma {:induction false} ServerCopiesFold(
    s: State, arrivals: seq<Arrival>, nowUs: nat, server: Endpoint, key: LinkKey
  )
    ensures ServerCopies(s, arrivals, nowUs, key) == FoldCopies(s, Packets(arrivals, false), nowUs, server, key)
  {
    hide FirstCopy, Fold, FromServers;
    if arrivals != [] {
      var init := arrivals[..|arrivals| - 1];
      ServerCopiesFold(s, init, nowUs, server, key);
      assert Packets(arrivals, false)[..|arrivals| - 1] == Packets(init, false);
      ServersFold(s, init, nowUs, server);
      ServersFold(s, arrivals, nowUs, server);
    }
  }

  lemma TickCopiesFold(s: State, t: Tick, server: Endpoint, key: LinkKey)
    ensures TickCopies(s, t, server, key) == FoldCopies(s, Entries(Ticks(t)), t.nowUs, server, key)
  {
    hide FoldCopies, Fold, ClientCopies, ServerCopies, FromClients;
    ClientCopiesFold(s, t.fromClients, t.nowUs, server, key);
    ClientsFold(s, t.fromClients, t.nowUs, server);
    ServerCopiesFold(FromClients(s, t.fromClients, t.nowUs, server), t.fromServer, t.nowUs, server, key);
    FoldCopiesConcat(s, Packets(t.fromClients, true), Packets(t.fromServer, false), t.nowUs, server, key);
  }

  /** The first copy of a fate is what its entry sends. */
  lemma CopyIsSent(
    s: State, t: State, setup: Setup, log: seq<Entry>, e: Entry, nowUs: nat, f: Fate, key: LinkKey
  )
    requires FateOk(setup, log, e, nowUs, s.scheduled != [], s.orderCounter, f) && Does(s, t, f)
    ensures Parcels(FirstCopy(s, t, key)) == SentBy(setup, log, e, key)
  {
    hide JobOf, InForce, DelayUs, Sum, Counts, LinkOf;
    var queued := FateQueued(f);
    assert t.scheduled == s.scheduled + queued;
    if queued != [] {
      assert t.scheduled[|s.scheduled|] == queued[0];
    }
  }

  /** The copies so far are what the log has sent so far. */
  ghost predicate CopiesSent(s: State, setup: Setup, log: seq<Entry>, es: seq<Entry>, nowUs: nat, key: LinkKey) {
    Sent(setup, log + es, key) == Sent(setup, log, key) + Parcels(FoldCopies(s, es, nowUs, setup.server, key))
    && Agrees(Fold(s, es, nowUs, setup.server), setup, log + es)
  }

  lemma {:induction false} FoldCopiesSent(
    s: State, setup: Setup, log: seq<Entry>, es: seq<Entry>, nowUs: nat, key: LinkKey
  )
    requires Agrees(s, setup, log) && forall e :: e in es ==> IsPacket(e)
    ensures CopiesSent(s, setup, log, es, nowUs, key)
  {
    hide Agrees, IsPacket, CopiesSent;
    if es == [] {
      NothingSent(s, setup, log, nowUs, key);
    } else {
      var init := es[..|es| - 1];
      assert forall x :: x in init ==> x in es;
      assert es[|es| - 1] in es;
      FoldCopiesSent(s, setup, log, init, nowUs, key);
      OneMoreSent(s, setup, log, es, nowUs, key);
    }
  }

  lemma NothingSent(s: State, setup: Setup, log: seq<Entry>, nowUs: nat, key: LinkKey)
    requires Agrees(s, setup, log)
    ensures CopiesSent(s, setup, log, [], nowUs, key)
  {
    hide Agrees, Sent;
    assert log + [] == log;
    assert FoldCopies(s, [], nowUs, setup.server, key) == [];
  }

  lemma OneMoreSent(s: State, setup: Setup, log: seq<Entry>, es: seq<Entry>, nowUs: nat, key: LinkKey)
    requires es != [] && IsPacket(es[|es| - 1]) && CopiesSent(s, setup, log, es[..|es| - 1], nowUs, key)
    ensures CopiesSent(s, setup, log, es, nowUs, key)
  {
    hide Agrees, IsPacket, FirstCopy, Apply, SentBy, FateOk, Does, Sent, FoldCopies, Parcels;
    var init, e := es[..|es| - 1], es[|es| - 1];
    var t, u := Fold(s, init, nowUs, setup.server), Fold(s, es, nowUs, setup.server);
    var f := PacketStep(t, setup, log + init, e, nowUs);
    CopyIsSent(t, u, setup, log + init, e, nowUs, f, key);
    assert log + es == log + init + [e];
    SentSnoc(setup, log + init, e, key);
    CopiesSnoc(s, es, nowUs, setup.server, key);
    ParcelsConcat(FoldCopies(s, init, nowUs, setup.server, key), FirstCopy(t, u, key));
  }

  lemma SentSnoc(setup: Setup, log: seq<Entry>, e: Entry, key: LinkKey)
    ensures Sent(setup, log + [e], key) == Sent(setup, log, key) + SentBy(setup, log, e, key)
  {
    hide SentBy;
    assert (log + [e])[..|log|] == log;
  }

  lemma CopiesSnoc(s: State, es: seq<Entry>, nowUs: nat, server: Endpoint, key: LinkKey)
    requires es != []
    ensures var init := es[..|es| - 1];
      FoldCopies(s, es, nowUs, server, key)
      == FoldCopies(s, init, nowUs, server, key)
         + FirstCopy(Fold(s, init, nowUs, server), Fold(s, es, nowUs, server), key)
  {
    hide Fold, FirstCopy;
  }

  lemma ParcelsConcat(a: seq<Relay>, b: seq<Relay>)
    ensures Parcels(a + b) == Parcels(a) + Parcels(b)
  {
  }

  /**
   The first copies of a link, which a constant link forwards on time and in order, are exactly what the log sends on
   it: every parsed client datagram to the server, every server datagram with a route to its endpoint, but the lost
   ones.
   */
  lemma {:induction false} FirstCopiesAreSent(setup: Setup, events: seq<Event>, key: LinkKey)
    ensures Parcels(FirstCopies(setup, events, key)) == Sent(setup, Log(events), key)
  {
    if events != [] {
      var init := events[..|events| - 1];
      FirstCopiesAreSent(setup, init, key);
      match events[|events| - 1]
      case Ticks(t) => TickSends(setup, init, t, key);
      case PeerConfigured(k, config) => SettingSendsNothing(setup, Log(init), PeerSet(k, config), key);
      case DefaultConfigured(up, config) => SettingSendsNothing(setup, Log(init), DefaultSet(up, config), key);
    }
  }

  lemma TickSends(setup: Setup, events: seq<Event>, t: Tick, key: LinkKey)
    requires Parcels(FirstCopies(setup, events, key)) == Sent(setup, Log(events), key)
    ensures Parcels(FirstCopies(setup, events, key) + TickCopies(Run(setup, events), t, setup.server, key))
         == Sent(setup, Log(events) + Entries(Ticks(t)), key)
  {
    hide Run, Agrees, IsPacket, TickCopies, Sent, Parcels, FirstCopies, Entries, FoldCopies;
    RunAgrees(setup, events);
    PacketsOnly(t);
    FoldCopiesSent(Run(setup, events), setup, Log(events), Entries(Ticks(t)), t.nowUs, key);
    TickCopiesFold(Run(setup, events), t, setup.server, key);
    ParcelsConcat(FirstCopies(setup, events, key), TickCopies(Run(setup, events), t, setup.server, key));
  }

  lemma PacketsOnly(t: Tick)
    ensures forall e :: e in Entries(Ticks(t)) ==> IsPacket(e)
  {
  }

  lemma SettingSendsNothing(setup: Setup, log: seq<Entry>, e: Entry, key: LinkKey)
    requires e.PeerSet? || e.DefaultSet?
    ensures Sent(setup, log + [e], key) == Sent(setup, log, key)
  {
    assert (log + [e])[..|log|] == log;
  }

  // ---------------------------------------------------------------------------------------------
  // Control copies

  /** Every command bundle of the clients is sent on as a control copy, in its place among them... */
  lemma {:induction false} BundleForked(arrivals: seq<Arrival>, k: nat)
    requires k < |arrivals| && arrivals[k].datagram.message.CommandBundle?
    ensures |Bundles(arrivals[..k])| < |Bundles(arrivals)|
    ensures Bundles(arrivals)[|Bundles(arrivals[..k])|] == arrivals[k].datagram
  {
    var init := arrivals[..|arrivals| - 1];
    if k < |init| {
      BundleForked(init, k);
      assert init[..k] == arrivals[..k];
    } else {
      assert init == arrivals[..k];
    }
  }

  /** ... and nothing else is. */
  lemma {:induction false} OnlyBundlesForked(arrivals: seq<Arrival>, i: nat)
    requires i < |Bundles(arrivals)|
    ensures exists k :: 0 <= k < |arrivals| && arrivals[k].datagram.message.CommandBundle?
                        && arrivals[k].datagram == Bundles(arrivals)[i] && |Bundles(arrivals[..k])| == i
  {
    var init := arrivals[..|arrivals| - 1];
    if i < |Bundles(init)| {
      OnlyBundlesForked(init, i);
      var k :| 0 <= k < |init| && init[k].datagram.message.CommandBundle?
               && init[k].datagram == Bundles(init)[i] && |Bundles(init[..k])| == i;
      assert arrivals[k] == init[k] && arrivals[..k] == init[..k];
    } else {
      assert arrivals[..|init|] == init;
    }
  }
}
