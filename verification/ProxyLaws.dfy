/** Conservation and order over whole runs of the proxy. */
module ProxyLaws {
  import opened Proxy
  import opened Words

  datatype Event =
    | Ticks(tick: Tick)
    | PeerConfigured(key: LinkKey, config: LinkConfig)
    | DefaultConfigured(upstream: bool, config: LinkConfig)

  datatype Setup = Setup(server: Endpoint, upstream: LinkConfig, downstream: LinkConfig)

  function Step(s: State, setup: Setup, e: Event): State {
    match e
    case Ticks(t) => Ticked(s, t, setup.server)
    case PeerConfigured(key, config) => WithPeerConfig(s, key, config)
    case DefaultConfigured(upstream, config) => WithDefaultConfig(s, upstream, config)
  }

  function Run(setup: Setup, events: seq<Event>): State {
    if events == [] then Fresh(setup.upstream, setup.downstream)
    else Step(Run(setup, events[..|events| - 1]), setup, events[|events| - 1])
  }

  // ---------------------------------------------------------------------------------------------
  // Counting relays

  lemma {:induction false} InFlightConcat(a: seq<Relay>, b: seq<Relay>, key: LinkKey, up: bool)
    ensures InFlight(a + b, key) == InFlight(a, key) + InFlight(b, key)
    ensures InFlightOf(a + b, up) == InFlightOf(a, up) + InFlightOf(b, up)
  {
    if b == [] {
      assert a + b == a;
    } else {
      InFlightConcat(a, b[..|b| - 1], key, up);
      assert (a + b)[..|a + b| - 1] == a + b[..|b| - 1];
    }
  }

  /** Relays of one link. */
  lemma {:induction false} InFlightUniform(rs: seq<Relay>, link: LinkKey, key: LinkKey, up: bool)
    requires forall r :: r in rs ==> r.link == link
    ensures InFlight(rs, key) == if key == link then |rs| else 0
    ensures InFlightOf(rs, up) == if up == link.upstream then |rs| else 0
  {
    if rs != [] {
      InFlightUniform(rs[..|rs| - 1], link, key, up);
    }
  }

  lemma CountOneMore(rs: seq<Relay>, r: Relay, key: LinkKey, up: bool)
    ensures InFlight(rs + [r], key) == InFlight(rs, key) + if r.link == key then 1 else 0
    ensures InFlightOf(rs + [r], up) == InFlightOf(rs, up) + if r.link.upstream == up then 1 else 0
  {
    assert (rs + [r])[..|rs|] == rs;
  }

  lemma {:induction false} InsertedCounts(rs: seq<Relay>, r: Relay, key: LinkKey, up: bool)
    ensures InFlight(Inserted(rs, r), key) == InFlight(rs, key) + if r.link == key then 1 else 0
    ensures InFlightOf(Inserted(rs, r), up) == InFlightOf(rs, up) + if r.link.upstream == up then 1 else 0
  {
    hide InFlight, InFlightOf, Before;
    CountOneMore(rs, r, key, up);
    if rs != [] && Before(r, rs[|rs| - 1]) {
      var init, last := rs[..|rs| - 1], rs[|rs| - 1];
      InsertedCounts(init, r, key, up);
      CountOneMore(Inserted(init, r), last, key, up);
      CountOneMore(init, last, key, up);
      assert rs == init + [last];
    }
  }

  lemma {:induction false} SortedCounts(rs: seq<Relay>, key: LinkKey, up: bool)
    ensures InFlight(Sorted(rs), key) == InFlight(rs, key)
    ensures InFlightOf(Sorted(rs), up) == InFlightOf(rs, up)
  {
    if rs != [] {
      SortedCounts(rs[..|rs| - 1], key, up);
      InsertedCounts(Sorted(rs[..|rs| - 1]), rs[|rs| - 1], key, up);
    }
  }

  lemma {:induction false} SplitCounts(rs: seq<Relay>, nowUs: nat, sendOk: nat -> bool, key: LinkKey, up: bool)
    ensures InFlight(rs, key) == InFlight(Going(rs, nowUs, sendOk), key) + InFlight(Staying(rs, nowUs, sendOk), key)
    ensures InFlightOf(rs, up) == InFlightOf(Going(rs, nowUs, sendOk), up) + InFlightOf(Staying(rs, nowUs, sendOk), up)
  {
    hide InFlight, InFlightOf, Goes, Going, Staying;
    if rs == [] {
      SplitNothing(nowUs, sendOk, key, up);
    } else {
      var init, r := rs[..|rs| - 1], rs[|rs| - 1];
      SplitCounts(init, nowUs, sendOk, key, up);
      SplitLast(rs, nowUs, sendOk);
      CountOneMore(init, r, key, up);
      CountOneMore(Going(init, nowUs, sendOk), r, key, up);
      CountOneMore(Staying(init, nowUs, sendOk), r, key, up);
      assert rs == init + [r];
    }
  }

  lemma SplitNothing(nowUs: nat, sendOk: nat -> bool, key: LinkKey, up: bool)
    ensures Going([], nowUs, sendOk) == [] && Staying([], nowUs, sendOk) == []
    ensures InFlight([], key) == 0 && InFlightOf([], up) == 0
  {
  }

  lemma SplitLast(rs: seq<Relay>, nowUs: nat, sendOk: nat -> bool)
    requires rs != []
    ensures var init, r := rs[..|rs| - 1], rs[|rs| - 1];
      if Goes(r, nowUs, sendOk)
      then Going(rs, nowUs, sendOk) == Going(init, nowUs, sendOk) + [r]
           && Staying(rs, nowUs, sendOk) == Staying(init, nowUs, sendOk)
      else Going(rs, nowUs, sendOk) == Going(init, nowUs, sendOk)
           && Staying(rs, nowUs, sendOk) == Staying(init, nowUs, sendOk) + [r]
  {
    hide Goes;
  }

  // ---------------------------------------------------------------------------------------------
  // The books

  function Balance(st: Stats): int {
    st.received + st.duplicated - st.dropped - st.forwarded
  }

  /** What a link has in flight beyond its own books. */
  function Owed(s: State, key: LinkKey): int {
    InFlight(s.scheduled, key) - Balance(LinkOf(s, key).stats)
  }

  function OwedOf(s: State, up: bool): int {
    InFlightOf(s.scheduled, up) - Balance(Aggregate(s, up))
  }

  function Net(d: Delta): int {
    d.received + d.duplicated - d.dropped - d.forwarded
  }

  lemma CountedBalance(s: State, at: LinkKey, d: Delta, key: LinkKey, up: bool)
    ensures Balance(LinkOf(Counted(s, at, d), key).stats)
         == Balance(LinkOf(s, key).stats) + if key == at then Net(d) else 0
    ensures Balance(Aggregate(Counted(s, at, d), up)) == Balance(Aggregate(s, up)) + if up
        == at.upstream then Net(d) else 0
    ensures Counted(s, at, d).scheduled == s.scheduled
  {
  }

  lemma WithQueueOwes(s: State, rs: seq<Relay>, key: LinkKey, up: bool)
    ensures Owed(WithQueue(s, rs), key) == Owed(s, key) && OwedOf(WithQueue(s, rs), up) == OwedOf(s, up)
  {
    hide InFlight, InFlightOf;
  }

  lemma ScheduledOwes(
    s: State, at: LinkKey, destination: Endpoint, payload: seq<U8>, nowUs: nat, dice: Dice, key: LinkKey, up: bool
  )
    ensures var after := Scheduled(s, at, destination, payload, nowUs, dice);
      Owed(after, key) == Owed(s, key) && OwedOf(after, up) == OwedOf(s, up)
  {
    hide WithQueue, Decide, Counted, Balance, InFlight, InFlightOf, LinkOf;
    var o := DecideFor(s, at, destination, payload, nowUs, dice);
    var counted := Counted(s, at, o.delta);
    CountedBalance(s, at, o.delta, key, up);
    InFlightConcat(s.scheduled, o.added, key, up);
    InFlightUniform(o.added, at, key, up);
    var after := counted.(scheduled := s.scheduled + o.added, orderCounter := s.orderCounter + |o.added|);
    BooksOnly(counted, after, key, up);
    WithQueueOwes(after, after.scheduled, key, up);
  }

  /** The balances depend on the links and aggregates alone. */
  lemma BooksOnly(s: State, t: State, key: LinkKey, up: bool)
    requires s.links == t.links && s.upstream == t.upstream && s.downstream == t.downstream
    ensures Balance(LinkOf(s, key).stats) == Balance(LinkOf(t, key).stats)
    ensures Balance(Aggregate(s, up)) == Balance(Aggregate(t, up))
  {
  }

  lemma SameBooksOwe(s: State, t: State, key: LinkKey, up: bool)
    requires s.links == t.links && s.upstream == t.upstream && s.downstream == t.downstream && s.scheduled
        == t.scheduled
    ensures Owed(s, key) == Owed(t, key) && OwedOf(s, up) == OwedOf(t, up)
  {
    hide InFlight, InFlightOf, Balance;
  }

  lemma FromClientOwes(s: State, a: Arrival, nowUs: nat, server: Endpoint, key: LinkKey, up: bool)
    ensures Owed(FromClient(s, a, nowUs, server), key) == Owed(s, key)
    ensures OwedOf(FromClient(s, a, nowUs, server), up) == OwedOf(s, up)
  {
    hide Scheduled, Owed, OwedOf;
    var d := a.datagram;
    var s1 := if d.message.Hello? then s.(sessionRoutes := s.sessionRoutes[d.message.sessionId := d.sender]) else s;
    var s2 := if d.peerId != 0 then s1.(peerRoutes := s1.peerRoutes[d.peerId := d.sender]) else s1;
    SameBooksOwe(s, s2, key, up);
    ScheduledOwes(s2, LinkKey(true, d.peerId), server, d.payload, nowUs, a.dice, key, up);
  }

  lemma FromServerOwes(s: State, a: Arrival, nowUs: nat, key: LinkKey, up: bool)
    ensures Owed(FromServer(s, a, nowUs), key) == Owed(s, key)
    ensures OwedOf(FromServer(s, a, nowUs), up) == OwedOf(s, up)
  {
    hide Scheduled, Owed, OwedOf;
    var d := a.datagram;
    match d.message
    case Unparsed =>
    case Welcome(session, peer) =>
      if session in s.sessionRoutes {
        var route := s.sessionRoutes[session];
        var s1 := s.(peerRoutes := s.peerRoutes[peer := route]);
        SameBooksOwe(s, s1, key, up);
        ScheduledOwes(s1, LinkKey(false, peer), route, d.payload, nowUs, a.dice, key, up);
      }
    case _ =>
      if d.peerId in s.peerRoutes {
        ScheduledOwes(s, LinkKey(false, d.peerId), s.peerRoutes[d.peerId], d.payload, nowUs, a.dice, key, up);
      }
  }

  lemma {:induction false} ClientsOwe(s: State, arrivals: seq<Arrival>, nowUs: nat, server: Endpoint, key: LinkKey,
      up: bool)
    ensures Owed(FromClients(s, arrivals, nowUs, server), key) == Owed(s, key)
    ensures OwedOf(FromClients(s, arrivals, nowUs, server), up) == OwedOf(s, up)
  {
    hide FromClient, Owed, OwedOf;
    if arrivals != [] {
      ClientsOwe(s, arrivals[..|arrivals| - 1], nowUs, server, key, up);
      FromClientOwes(FromClients(s, arrivals[..|arrivals| - 1], nowUs, server), arrivals[|arrivals| - 1], nowUs,
          server, key, up);
    }
  }

  lemma {:induction false} ServersOwe(s: State, arrivals: seq<Arrival>, nowUs: nat, key: LinkKey, up: bool)
    ensures Owed(FromServers(s, arrivals, nowUs), key) == Owed(s, key)
    ensures OwedOf(FromServers(s, arrivals, nowUs), up) == OwedOf(s, up)
  {
    hide FromServer, Owed, OwedOf;
    if arrivals != [] {
      ServersOwe(s, arrivals[..|arrivals| - 1], nowUs, key, up);
      FromServerOwes(FromServers(s, arrivals[..|arrivals| - 1], nowUs), arrivals[|arrivals| - 1], nowUs, key, up);
    }
  }

  lemma {:induction false} ForwardBalance(s: State, rs: seq<Relay>, key: LinkKey, up: bool)
    ensures Balance(LinkOf(CountedForward(s, rs), key).stats) == Balance(LinkOf(s, key).stats) - InFlight(rs, key)
    ensures Balance(Aggregate(CountedForward(s, rs), up)) == Balance(Aggregate(s, up)) - InFlightOf(rs, up)
  {
    hide Counted, Balance, LinkOf;
    if rs != [] {
      var init := rs[..|rs| - 1];
      ForwardBalance(s, init, key, up);
      CountedBalance(CountedForward(s, init), rs[|rs| - 1].link, Delta(0, 1, 0, 0, 0), key, up);
    }
  }

  lemma TickOwes(s: State, t: Tick, server: Endpoint, key: LinkKey, up: bool)
    ensures Owed(Ticked(s, t, server), key) == Owed(s, key)
    ensures OwedOf(Ticked(s, t, server), up) == OwedOf(s, up)
  {
    hide FromClients, FromServers, Sorted, Going, Staying, CountedForward, WithQueue, Balance, LinkOf, InFlight,
         InFlightOf,
         Aggregate;
    var arrived := Arrived(s, t, server);
    ClientsOwe(s, t.fromClients, t.nowUs, server, key, up);
    ServersOwe(FromClients(s, t.fromClients, t.nowUs, server), t.fromServer, t.nowUs, key, up);
    var sorted := Sorted(arrived.scheduled);
    SortedCounts(arrived.scheduled, key, up);
    SplitCounts(sorted, t.nowUs, t.sendOk, key, up);
    var going := Going(sorted, t.nowUs, t.sendOk);
    ForwardBalance(arrived, going, key, up);
    var counted := CountedForward(arrived, going);
    var after := counted.(scheduled := Staying(sorted, t.nowUs, t.sendOk));
    BooksOnly(counted, after, key, up);
    WithQueueOwes(after, after.scheduled, key, up);
  }

  // ---------------------------------------------------------------------------------------------
  // Conservation

  /** The relays of the link in flight when its configuration was last set; none if it never was. */
  function Carry(setup: Setup, events: seq<Event>, key: LinkKey): nat {
    if events == [] then 0
    else
      var init, e := events[..|events| - 1], events[|events| - 1];
      if e.PeerConfigured? && e.key == key then InFlight(Run(setup, init).scheduled, key) else Carry(setup, init, key)
  }

  lemma {:induction false} RunOwes(setup: Setup, events: seq<Event>, key: LinkKey, up: bool)
    ensures Owed(Run(setup, events), key) == Carry(setup, events, key)
    ensures OwedOf(Run(setup, events), up) == 0
  {
    hide Ticked, InFlight, InFlightOf, Owed, OwedOf;
    if events == [] {
      FreshOwes(setup, key, up);
    } else {
      var init := events[..|events| - 1];
      RunOwes(setup, init, key, up);
      match events[|events| - 1]
      case Ticks(t) => TickOwes(Run(setup, init), t, setup.server, key, up);
      case PeerConfigured(at, config) => PeerConfigOwes(Run(setup, init), at, config, key, up);
      case DefaultConfigured(upstream, config) => DefaultConfigOwes(Run(setup, init), upstream, config, key, up);
    }
  }

  lemma FreshOwes(setup: Setup, key: LinkKey, up: bool)
    ensures Owed(Fresh(setup.upstream, setup.downstream), key) == 0
    ensures OwedOf(Fresh(setup.upstream, setup.downstream), up) == 0
  {
  }

  lemma PeerConfigOwes(s: State, at: LinkKey, config: LinkConfig, key: LinkKey, up: bool)
    ensures Owed(WithPeerConfig(s, at, config), key) == if key == at then InFlight(s.scheduled, key) else Owed(s, key)
    ensures OwedOf(WithPeerConfig(s, at, config), up) == OwedOf(s, up)
  {
    hide InFlight, InFlightOf;
  }

  lemma DefaultConfigOwes(s: State, upstream: bool, config: LinkConfig, key: LinkKey, up: bool)
    ensures Owed(WithDefaultConfig(s, upstream, config), key) == Owed(s, key)
    ensures OwedOf(WithDefaultConfig(s, upstream, config), up) == OwedOf(s, up)
  {
    hide InFlight, InFlightOf;
  }

  ghost predicate QueueShown(s: State) {
    && (forall key :: key in s.links ==> s.links[key].stats.queued == InFlight(s.scheduled, key))
    && s.upstream.queued == InFlightOf(s.scheduled, true)
    && s.downstream.queued == InFlightOf(s.scheduled, false)
  }

  lemma TickShowsQueue(s: State, t: Tick, server: Endpoint)
    ensures QueueShown(Ticked(s, t, server))
  {
    hide CountedForward, Staying, Sorted, Going, Arrived;
  }

  /**
   After every tick, in each direction: received and duplicated packets are dropped, forwarded or queued.  On
   each link the same holds with the relays that were in flight when it was last reconfigured added on the left.
   */
  lemma Conservation(setup: Setup, events: seq<Event>, key: LinkKey, up: bool)
    requires events != [] && events[|events| - 1].Ticks?
    ensures var s := Run(setup, events);
      var all := Aggregate(s, up);
      all.received + all.duplicated == all.dropped + all.forwarded + all.queued
      && (key in s.links ==>
            var link := s.links[key].stats;
            link.received + link.duplicated + Carry(setup, events, key) == link.dropped + link.forwarded + link.queued)
  {
    hide Ticked, InFlight, InFlightOf, Carry;
    var init := events[..|events| - 1];
    RunOwes(setup, events, key, up);
    TickShowsQueue(Run(setup, init), events[|events| - 1].tick, setup.server);
  }

  /** Without the carry the books of a link balance exactly when nothing was in flight at its reconfiguration. */
  lemma LinkBalancesIffNoCarry(setup: Setup, events: seq<Event>, key: LinkKey)
    requires events != [] && events[|events| - 1].Ticks? && key in Run(setup, events).links
    ensures var link := Run(setup, events).links[key].stats;
      link.received + link.duplicated == link.dropped + link.forwarded + link.queued
      <==> Carry(setup, events, key) == 0
  {
    hide Run, Carry;
    Conservation(setup, events, key, true);
  }

  // ---------------------------------------------------------------------------------------------
  // Every queued relay is in the books

  ghost predicate Linked(s: State, rs: seq<Relay>) {
    forall r :: r in rs ==> r.link in s.links
  }

  ghost predicate AllLinked(s: State) {
    Linked(s, s.scheduled)
  }

  lemma ScheduledLinked(s: State, at: LinkKey, destination: Endpoint, payload: seq<U8>, nowUs: nat, dice: Dice)
    requires AllLinked(s)
    ensures var after := Scheduled(s, at, destination, payload, nowUs, dice);
      AllLinked(after) && after.links.Keys == s.links.Keys + {at}
  {
    hide Decide, InFlight, InFlightOf, Plus, LinkOf;
    var o := DecideFor(s, at, destination, payload, nowUs, dice);
    assert forall r :: r in o.added ==> r.link == at;
  }

  lemma FromClientLinked(s: State, a: Arrival, nowUs: nat, server: Endpoint)
    requires AllLinked(s)
    ensures AllLinked(FromClient(s, a, nowUs, server))
  {
    hide Scheduled;
    var d := a.datagram;
    var s1 := if d.message.Hello? then s.(sessionRoutes := s.sessionRoutes[d.message.sessionId := d.sender]) else s;
    var s2 := if d.peerId != 0 then s1.(peerRoutes := s1.peerRoutes[d.peerId := d.sender]) else s1;
    ScheduledLinked(s2, LinkKey(true, d.peerId), server, d.payload, nowUs, a.dice);
  }

  lemma FromServerLinked(s: State, a: Arrival, nowUs: nat)
    requires AllLinked(s)
    ensures AllLinked(FromServer(s, a, nowUs))
  {
    hide Scheduled;
    var d := a.datagram;
    match d.message
    case Unparsed =>
    case Welcome(session, peer) =>
      if session in s.sessionRoutes {
        var route := s.sessionRoutes[session];
        ScheduledLinked(s.(peerRoutes := s.peerRoutes[peer := route]), LinkKey(false, peer), route, d.payload,
            nowUs, a.dice);
      }
    case _ =>
      if d.peerId in s.peerRoutes {
        ScheduledLinked(s, LinkKey(false, d.peerId), s.peerRoutes[d.peerId], d.payload, nowUs, a.dice);
      }
  }

  lemma {:induction false} ClientsLinked(s: State, arrivals: seq<Arrival>, nowUs: nat, server: Endpoint)
    requires AllLinked(s)
    ensures AllLinked(FromClients(s, arrivals, nowUs, server))
  {
    hide FromClient, AllLinked;
    if arrivals != [] {
      ClientsLinked(s, arrivals[..|arrivals| - 1], nowUs, server);
      FromClientLinked(FromClients(s, arrivals[..|arrivals| - 1], nowUs, server), arrivals[|arrivals| - 1], nowUs,
          server);
    }
  }

  lemma {:induction false} ServersLinked(s: State, arrivals: seq<Arrival>, nowUs: nat)
    requires AllLinked(s)
    ensures AllLinked(FromServers(s, arrivals, nowUs))
  {
    hide FromServer, AllLinked;
    if arrivals != [] {
      ServersLinked(s, arrivals[..|arrivals| - 1], nowUs);
      FromServerLinked(FromServers(s, arrivals[..|arrivals| - 1], nowUs), arrivals[|arrivals| - 1], nowUs);
    }
  }

  lemma {:induction false} InsertedSame(rs: seq<Relay>, r: Relay)
    ensures multiset(Inserted(rs, r)) == multiset(rs) + multiset{r}
  {
    hide Before;
    if rs != [] && Before(r, rs[|rs| - 1]) {
      var init, last := rs[..|rs| - 1], rs[|rs| - 1];
      InsertedSame(init, r);
      assert rs == init + [last];
    }
  }

  /** Sorting loses and makes no relay. */
  lemma {:induction false} SortedSame(rs: seq<Relay>)
    ensures multiset(Sorted(rs)) == multiset(rs)
  {
    if rs != [] {
      SortedSame(rs[..|rs| - 1]);
      LastSortedIn(rs);
    }
  }

  lemma LastSortedIn(rs: seq<Relay>)
    requires rs != [] && multiset(Sorted(rs[..|rs| - 1])) == multiset(rs[..|rs| - 1])
    ensures multiset(Sorted(rs)) == multiset(rs)
  {
    hide Inserted, Before;
    var init, last := rs[..|rs| - 1], rs[|rs| - 1];
    assert Sorted(rs) == Inserted(Sorted(init), last);
    InsertedSame(Sorted(init), last);
    LastAdded(rs);
  }

  lemma LastAdded(rs: seq<Relay>)
    requires rs != []
    ensures multiset(rs) == multiset(rs[..|rs| - 1]) + multiset{rs[|rs| - 1]}
  {
    assert rs == rs[..|rs| - 1] + [rs[|rs| - 1]];
  }

  lemma SortedHas(rs: seq<Relay>, r: Relay)
    ensures r in Sorted(rs) <==> r in rs
  {
    SortedSame(rs);
    assert r in multiset(Sorted(rs)) <==> r in multiset(rs);
  }

  /** A relay of the queue goes or stays, as its due time and the send decide. */
  lemma {:induction false} SplitHas(rs: seq<Relay>, nowUs: nat, sendOk: nat -> bool, r: Relay)
    ensures r in Going(rs, nowUs, sendOk) <==> r in rs && Goes(r, nowUs, sendOk)
    ensures r in Staying(rs, nowUs, sendOk) <==> r in rs && !Goes(r, nowUs, sendOk)
  {
    if rs != [] {
      SplitHas(rs[..|rs| - 1], nowUs, sendOk, r);
    }
  }

  lemma {:induction false} ForwardKeepsLinks(s: State, rs: seq<Relay>)
    ensures s.links.Keys <= CountedForward(s, rs).links.Keys
  {
    hide Plus, LinkOf;
    if rs != [] {
      ForwardKeepsLinks(s, rs[..|rs| - 1]);
    }
  }

  lemma TickLinked(s: State, t: Tick, server: Endpoint)
    requires AllLinked(s)
    ensures AllLinked(Ticked(s, t, server))
  {
    hide FromClients, FromServers, Sorted, Going, Staying, CountedForward, InFlight, InFlightOf;
    var arrived := Arrived(s, t, server);
    ClientsLinked(s, t.fromClients, t.nowUs, server);
    ServersLinked(FromClients(s, t.fromClients, t.nowUs, server), t.fromServer, t.nowUs);
    var sorted := Sorted(arrived.scheduled);
    var going, staying := Going(sorted, t.nowUs, t.sendOk), Staying(sorted, t.nowUs, t.sendOk);
    ForwardKeepsLinks(arrived, going);
    forall r | r in staying
      ensures r in arrived.scheduled
    {
      SplitHas(sorted, t.nowUs, t.sendOk, r);
      SortedHas(arrived.scheduled, r);
    }
  }

  /**
   In every run every queued relay has an entry for its link, so its counters are never made anew while forwarding.
   */
  lemma {:induction false} RunAllLinked(setup: Setup, events: seq<Event>)
    ensures AllLinked(Run(setup, events))
  {
    hide Ticked;
    if events != [] {
      var init := events[..|events| - 1];
      RunAllLinked(setup, init);
      match events[|events| - 1]
      case Ticks(t) => TickLinked(Run(setup, init), t, setup.server);
      case _ =>
    }
  }
}
