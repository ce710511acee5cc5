/**
 What a batch returns: every relevant event exactly once, and in an order in which a network's
 creation comes before its events, a channel's opening before its events, and the events of one
 channel as they happened.
 */
module DiscoveryOrder {
  import opened LockCodec
  import opened LockMaps
  import opened StableSort
  import opened EventOrder
  import opened FilterDiscovery

  // ---------- how often one round returns an event ----------

  function Hits(queries: seq<Query>, node: Address, e: LogEvent): nat
  {
    if queries == [] then 0
    else (if Matches(queries[0], node, e) then 1 else 0) + Hits(queries[1..], node, e)
  }

  lemma {:induction false} HitsConcat(a: seq<Query>, b: seq<Query>, node: Address, e: LogEvent)
    ensures Hits(a + b, node, e) == Hits(a, node, e) + Hits(b, node, e)
  {
    if a == [] {
      assert a + b == b;
    } else {
      assert (a + b)[1..] == a[1..] + b;
      HitsConcat(a[1..], b, node, e);
    }
  }

  lemma {:induction false} ChannelHits(m: map<Address, set<nat>>, node: Address, e: LogEvent)
    ensures Hits(ChannelQueries(m), node, e)
         == if e.body.OfChannel? && e.body.network in m && e.body.channel in m[e.body.network] then 1 else 0
    decreases m.Keys
  {
    if m.Keys != {} {
      var n := Least(m.Keys);
      ChannelHits(m - {n}, node, e);
      assert ChannelQueries(m)[1..] == ChannelQueries(m - {n});
    }
  }

  function Asks(b: bool): nat { if b then 1 else 0 }

  /** How many queries of a filter ask for an event. */
  function Asked(f: Filter, node: Address, e: LogEvent): nat
  {
    match e.body
    case Created(registry, _) => Asks(registry in f.registries)
    case Opened(network, _, first, second) =>
      if network in f.networks then Asks(first == node) + Asks(second == node) else 0
    case OfChannel(network, channel, _) => Asks(Watches(f, network, channel))
    case Revealed(registry) => Asks(f.secretRegistry == Some(registry) && !f.ignoreSecrets)
    case Registered(registry) => Asks(f.serviceRegistry == Some(registry))
    case Other(_) => 0
  }

  lemma QueriesAsk(f: Filter, node: Address, e: LogEvent)
    ensures Hits(Queries(f), node, e) == Asked(f, node, e)
  {
    hide Hits, ChannelQueries, Matches;
    var q0 := if f.registries != {} then [Networks(f.registries)] else [];
    var q1 := if f.secretRegistry.Some? && !f.ignoreSecrets then [Secrets(f.secretRegistry.value)] else [];
    var q2 := if f.networks != {} then [OpenedByFirst(f.networks), OpenedBySecond(f.networks)] else [];
    var q3 := ChannelQueries(f.channels);
    var q4 := if f.serviceRegistry.Some? then [Services(f.serviceRegistry.value)] else [];
    ChannelHits(f.channels, node, e);
    HitsConcat(q0, q1, node, e);
    HitsConcat(q0 + q1, q2, node, e);
    HitsConcat(q0 + q1 + q2, q3, node, e);
    HitsConcat(q0 + q1 + q2 + q3, q4, node, e);
    ContractHits(f, node, e, q0, q1, q4);
    NetworkHits(f, node, e, q2);
  }

  lemma ContractHits(f: Filter, node: Address, e: LogEvent, q0: seq<Query>, q1: seq<Query>, q4: seq<Query>)
    requires q0 == if f.registries != {} then [Networks(f.registries)] else []
    requires q1 == if f.secretRegistry.Some? && !f.ignoreSecrets then [Secrets(f.secretRegistry.value)] else []
    requires q4 == if f.serviceRegistry.Some? then [Services(f.serviceRegistry.value)] else []
    ensures Hits(q0, node, e) == Asks(e.body.Created? && e.body.registry in f.registries)
    ensures Hits(q1, node, e)
         == Asks(e.body.Revealed? && f.secretRegistry == Some(e.body.secretRegistry) && !f.ignoreSecrets)
    ensures Hits(q4, node, e) == Asks(e.body.Registered? && f.serviceRegistry == Some(e.body.serviceRegistry))
  {
    hide Hits;
    HitsShort(q0, node, e);
    HitsShort(q1, node, e);
    HitsShort(q4, node, e);
  }

  lemma NetworkHits(f: Filter, node: Address, e: LogEvent, q2: seq<Query>)
    requires q2 == if f.networks != {} then [OpenedByFirst(f.networks), OpenedBySecond(f.networks)] else []
    ensures Hits(q2, node, e)
         == if e.body.Opened? && e.body.network in f.networks
            then Asks(e.body.first == node) + Asks(e.body.second == node) else 0
  {
    hide Hits;
    HitsShort(q2, node, e);
  }

  lemma HitsShort(queries: seq<Query>, node: Address, e: LogEvent)
    ensures |queries| == 0 ==> Hits(queries, node, e) == 0
    ensures |queries| == 1 ==> Hits(queries, node, e) == Asks(Matches(queries[0], node, e))
    ensures |queries| == 2 ==> Hits(queries, node, e) == Asks(Matches(queries[0], node, e)) + Asks(Matches(queries[1], node, e))
  {
    hide Matches;
    if |queries| == 2 {
      HitsShort(queries[1..], node, e);
    }
  }

  /** The events that every query treats like `e`: those of the same channel, or `e` alone. */
  predicate Like(e: LogEvent, x: LogEvent)
  {
    if e.body.OfChannel? then
      x.body.OfChannel? && x.body.network == e.body.network && x.body.channel == e.body.channel
    else x == e
  }

  function Alike(e: LogEvent): LogEvent -> bool { (x: LogEvent) => Like(e, x) }

  function Times(k: nat, n: nat): nat { k * n }

  lemma TimesAdd(a: nat, b: nat, n: nat)
    ensures Times(a + b, n) == Times(a, n) + Times(b, n)
    ensures Times(0, n) == 0 && Times(1, n) == n
  {
  }

  lemma SelectQuery(q: Query, node: Address, logs: seq<LogEvent>, e: LogEvent)
    ensures Select(Select(logs, x => Matches(q, node, x)), Alike(e))
         == if Matches(q, node, e) then Select(logs, Alike(e)) else []
  {
    var p := (x: LogEvent) => Matches(q, node, x);
    SelectSelect(logs, p, Alike(e));
    assert forall x :: Alike(e)(x) ==> p(x) == p(e);
  }

  lemma {:induction false} SelectResults(queries: seq<Query>, node: Address, logs: seq<LogEvent>, e: LogEvent)
    ensures Hits(queries, node, e) == 0 ==> Select(Results(queries, node, logs), Alike(e)) == []
    ensures Hits(queries, node, e) == 1 ==> Select(Results(queries, node, logs), Alike(e)) == Select(logs, Alike(e))
    ensures |Select(Results(queries, node, logs), Alike(e))| == Times(Hits(queries, node, e), |Select(logs, Alike(e))|)
  {
    hide Times, Select, Matches;
    var n := |Select(logs, Alike(e))|;
    TimesAdd(0, 0, n);
    if queries == [] {
      assert Select([], Alike(e)) == [] by { SelectNothing(Alike(e)); }
    } else {
      SelectResults(queries[1..], node, logs, e);
      SelectConcat(Select(logs, x => Matches(queries[0], node, x)), Results(queries[1..], node, logs), Alike(e));
      SelectQuery(queries[0], node, logs, e);
      TimesAdd(1, Hits(queries[1..], node, e), n);
    }
  }

  lemma SelectNothing(p: LogEvent -> bool)
    ensures Select([], p) == []
  {
  }

  /** A round returns the events like `e` once for every query that asks for them. */
  lemma SelectRound(f: Filter, node: Address, logs: seq<LogEvent>, e: LogEvent)
    requires ByBlock(logs)
    ensures Asked(f, node, e) == 0 ==> Select(Round(f, node, logs), Alike(e)) == []
    ensures Asked(f, node, e) == 1 ==> Select(Round(f, node, logs), Alike(e)) == Select(logs, Alike(e))
    ensures |Select(Round(f, node, logs), Alike(e))| == Times(Asked(f, node, e), |Select(logs, Alike(e))|)
  {
    hide Times, Select, Asked, Hits, Queries;
    QueriesAsk(f, node, e);
    SelectResults(Queries(f), node, logs, e);
    SelectSort(NotLater, Results(Queries(f), node, logs), Alike(e));
    if Asked(f, node, e) <= 1 {
      SelectSorted(Results(Queries(f), node, logs), logs, Alike(e));
    }
  }

  lemma RoundHas(f: Filter, node: Address, logs: seq<LogEvent>, e: LogEvent)
    ensures e in Round(f, node, logs) <==> e in logs && Asked(f, node, e) > 0
  {
    ResultsMatch(Queries(f), node, logs, e);
    QueriesAsk(f, node, e);
    HitsExists(Queries(f), node, e);
  }

  lemma {:induction false} HitsExists(queries: seq<Query>, node: Address, e: LogEvent)
    ensures Hits(queries, node, e) > 0 <==> exists i :: 0 <= i < |queries| && Matches(queries[i], node, e)
  {
    if queries != [] {
      HitsExists(queries[1..], node, e);
      if exists i :: 0 <= i < |queries| && Matches(queries[i], node, e) {
        var i :| 0 <= i < |queries| && Matches(queries[i], node, e);
        assert i > 0 ==> queries[1..][i - 1] == queries[i];
      }
      if exists i :: 0 <= i < |queries[1..]| && Matches(queries[1..][i], node, e) {
        var i :| 0 <= i < |queries[1..]| && Matches(queries[1..][i], node, e);
        assert queries[i + 1] == queries[1..][i];
      }
    }
  }

  // ---------- three rounds ----------

  function Second(f: Filter, node: Address, logs: seq<LogEvent>): Filter { Child(Round(f, node, logs)) }

  function Third(f: Filter, node: Address, logs: seq<LogEvent>): Filter { Second(Second(f, node, logs), node, logs) }

  lemma QuietRound(f: Filter, node: Address, logs: seq<LogEvent>)
    requires !Truthy(f) && f.serviceRegistry.None?
    ensures Round(f, node, logs) == []
  {
    assert f.channels.Keys == {};
    assert Queries(f) == [];
  }

  lemma ChildIsPlain(events: seq<LogEvent>)
    ensures Child(events).registries == {} && Child(events).serviceRegistry.None?
    ensures events == [] ==> !Truthy(Child(events))
  {
  }

  lemma DiscoverThree(f: Filter, node: Address, logs: seq<LogEvent>)
    requires Truthy(f)
    ensures Discover(f, node, logs)
         == Round(f, node, logs) + Round(Second(f, node, logs), node, logs) + Round(Third(f, node, logs), node, logs)
  {
    var f1, f2 := Second(f, node, logs), Third(f, node, logs);
    var r0, r1, r2 := Round(f, node, logs), Round(f1, node, logs), Round(f2, node, logs);
    ChildIsPlain(r0);
    ChildIsPlain(r1);
    ChildIsPlain(r2);
    RankFalls(f, node, logs);
    if Truthy(f1) { RankFalls(f1, node, logs); } else { QuietRound(f1, node, logs); }
    if Truthy(f2) { RankFalls(f2, node, logs); } else { QuietRound(f2, node, logs); }
    hide Round, Child, Rank;
    assert Discover(f2, node, logs) == r2;
    assert Discover(f1, node, logs) == r1 + r2;
  }

  /** How often an event is returned by the three rounds together. */
  function Returned(f: Filter, node: Address, logs: seq<LogEvent>, e: LogEvent): nat
  {
    Asked(f, node, e) + Asked(Second(f, node, logs), node, e) + Asked(Third(f, node, logs), node, e)
  }

  /** The exact number of copies, whatever the filter and the logs. */
  lemma CopiesReturned(f: Filter, node: Address, logs: seq<LogEvent>, e: LogEvent)
    requires Truthy(f) && ByBlock(logs)
    ensures var got, all := Select(Discover(f, node, logs), Alike(e)), Select(logs, Alike(e));
      |got| == Times(Returned(f, node, logs, e), |all|)
      && (Returned(f, node, logs, e) == 0 ==> got == [])
      && (Returned(f, node, logs, e) == 1 ==> got == all)
  {
    hide Round, Asked, Discover, Select, Times, Second, Third;
    var f1, f2 := Second(f, node, logs), Third(f, node, logs);
    var r0, r1, r2 := Round(f, node, logs), Round(f1, node, logs), Round(f2, node, logs);
    var n := |Select(logs, Alike(e))|;
    DiscoverThree(f, node, logs);
    SelectRound(f, node, logs, e);
    SelectRound(f1, node, logs, e);
    SelectRound(f2, node, logs, e);
    SelectConcat(r0, r1, Alike(e));
    SelectConcat(r0 + r1, r2, Alike(e));
    TimesAdd(Asked(f, node, e), Asked(f1, node, e), n);
    TimesAdd(Asked(f, node, e) + Asked(f1, node, e), Asked(f2, node, e), n);
  }

  // ---------- the chain ----------

  predicate SameOpening(e: LogEvent, x: LogEvent)
  {
    e.body.Opened? && x.body.Opened? && e.body.network == x.body.network && e.body.channel == x.body.channel
  }

  /**
   What the chain and the start of the batch guarantee: the logs are in block order, nothing that
   is already followed is created or opening again, nothing twice, and no channel joins a
   participant with itself.
   */
  ghost predicate Predates(f: Filter, logs: seq<LogEvent>)
  {
    && ByBlock(logs)
    && (forall e :: e in logs && e.body.Created? ==> e.body.network !in f.networks)
    && (forall e :: e in logs && e.body.Opened? ==>
          !Watches(f, e.body.network, e.body.channel) && e.body.first != e.body.second)
    && (forall e, x :: e in logs && x in logs && SameOpening(e, x) ==> e == x)
  }

  /** A network that is followed from the start, or created by a registry that is. */
  ghost predicate KnownNetwork(f: Filter, logs: seq<LogEvent>, network: Address)
  {
    network in f.networks ||
    exists e :: e in logs && e.body.Created? && e.body.network == network && e.body.registry in f.registries
  }

  /** A channel that is followed from the start, or opened by the node in a known network. */
  ghost predicate KnownChannel(f: Filter, node: Address, logs: seq<LogEvent>, network: Address, channel: nat)
  {
    Watches(f, network, channel) ||
    exists e :: e in logs && e.body.Opened? && e.body.network == network && e.body.channel == channel
      && (e.body.first == node || e.body.second == node) && KnownNetwork(f, logs, network)
  }

  ghost predicate Relevant(f: Filter, node: Address, logs: seq<LogEvent>, e: LogEvent)
  {
    match e.body
    case Created(registry, _) => registry in f.registries
    case Opened(network, _, first, second) => KnownNetwork(f, logs, network) && (first == node || second == node)
    case OfChannel(network, channel, _) => KnownChannel(f, node, logs, network, channel)
    case Revealed(registry) => f.secretRegistry == Some(registry) && !f.ignoreSecrets
    case Registered(registry) => f.serviceRegistry == Some(registry)
    case Other(_) => false
  }

  /** The networks of the second round are the created ones; the third round has none. */
  lemma SecondNetworks(f: Filter, node: Address, logs: seq<LogEvent>, network: Address)
    ensures network in Second(f, node, logs).networks <==>
      exists e :: e in logs && e.body.Created? && e.body.network == network && e.body.registry in f.registries
    ensures network !in Third(f, node, logs).networks
  {
    forall e ensures e in Round(f, node, logs) <==> e in logs && Asked(f, node, e) > 0 {
      RoundHas(f, node, logs, e);
    }
    forall e ensures e in Round(Second(f, node, logs), node, logs) <==> e in logs && Asked(Second(f, node, logs), node, e) > 0 {
      RoundHas(Second(f, node, logs), node, logs, e);
    }
    hide Round, Queries;
  }

  /** The channels of the next round are those opened in networks of this one. */
  lemma SecondChannels(f: Filter, node: Address, logs: seq<LogEvent>, network: Address, channel: nat)
    ensures Watches(Second(f, node, logs), network, channel) <==>
      exists e :: e in logs && e.body.Opened? && e.body.network == network && e.body.channel == channel
        && network in f.networks && (e.body.first == node || e.body.second == node)
  {
    OpenedChannelsFrom(Round(f, node, logs), network, channel);
    forall e ensures e in Round(f, node, logs) <==> e in logs && Asked(f, node, e) > 0 {
      RoundHas(f, node, logs, e);
    }
    hide Round, OpenedChannels;
  }

  /** The network is created in the batch, by a registry that is followed. */
  ghost predicate CreatedHere(f: Filter, logs: seq<LogEvent>, network: Address)
  {
    exists e :: e in logs && e.body.Created? && e.body.network == network && e.body.registry in f.registries
  }

  /** The node opens the channel in the batch. */
  ghost predicate OpenedHere(node: Address, logs: seq<LogEvent>, network: Address, channel: nat)
  {
    exists e :: e in logs && e.body.Opened? && e.body.network == network && e.body.channel == channel
      && (e.body.first == node || e.body.second == node)
  }

  /** Nothing about the event is both followed already and announced in the batch. */
  ghost predicate FoundOnce(f: Filter, node: Address, logs: seq<LogEvent>, e: LogEvent)
  {
    match e.body
    case Opened(network, _, first, second) =>
      first != second && !(network in f.networks && CreatedHere(f, logs, network))
    case OfChannel(network, channel, _) =>
      OpenedHere(node, logs, network, channel) ==>
        !(Watches(f, network, channel) && KnownNetwork(f, logs, network))
        && !(network in f.networks && CreatedHere(f, logs, network))
    case _ => true
  }

  lemma ReturnedOpened(f: Filter, node: Address, logs: seq<LogEvent>, e: LogEvent)
    requires e in logs && e.body.Opened?
    ensures Returned(f, node, logs, e) > 0 <==> Relevant(f, node, logs, e)
    ensures Relevant(f, node, logs, e) ==> (Returned(f, node, logs, e) == 1 <==> FoundOnce(f, node, logs, e))
  {
    SecondNetworks(f, node, logs, e.body.network);
    hide Second, Third;
  }

  lemma ReturnedChannel(f: Filter, node: Address, logs: seq<LogEvent>, e: LogEvent)
    requires e in logs && e.body.OfChannel?
    ensures Returned(f, node, logs, e) > 0 <==> Relevant(f, node, logs, e)
    ensures Relevant(f, node, logs, e) ==> (Returned(f, node, logs, e) == 1 <==> FoundOnce(f, node, logs, e))
  {
    var network, channel := e.body.network, e.body.channel;
    SecondNetworks(f, node, logs, network);
    SecondChannels(f, node, logs, network, channel);
    SecondChannels(Second(f, node, logs), node, logs, network, channel);
    hide Second, Watches;
  }

  lemma ReturnedOther(f: Filter, node: Address, logs: seq<LogEvent>, e: LogEvent)
    requires !e.body.Opened? && !e.body.OfChannel?
    ensures Returned(f, node, logs, e) == Asks(Relevant(f, node, logs, e))
  {
    ChildIsPlain(Round(f, node, logs));
    hide Round, OpenedChannels;
  }

  lemma MoreThanOnce(k: nat, n: nat)
    requires k >= 2 && n >= 1
    ensures Times(k, n) > n
  {
  }

  /**
   The main theorem. Whatever the filter, a batch returns nothing irrelevant, and it returns the
   events like a relevant one exactly as they happened if and only if that one is found once.
   */
  lemma DiscoverOnceExactly(f: Filter, node: Address, logs: seq<LogEvent>, e: LogEvent)
    requires Truthy(f) && ByBlock(logs) && e in logs
    ensures !Relevant(f, node, logs, e) ==> Select(Discover(f, node, logs), Alike(e)) == []
    ensures Relevant(f, node, logs, e) ==>
      (Select(Discover(f, node, logs), Alike(e)) == Select(logs, Alike(e)) <==> FoundOnce(f, node, logs, e))
  {
    CopiesReturned(f, node, logs, e);
    if e.body.Opened? {
      ReturnedOpened(f, node, logs, e);
    } else if e.body.OfChannel? {
      ReturnedChannel(f, node, logs, e);
    } else {
      ReturnedOther(f, node, logs, e);
    }
    assert e in Select(logs, Alike(e));
    var k, n := Returned(f, node, logs, e), |Select(logs, Alike(e))|;
    if k >= 2 { MoreThanOnce(k, n); }
    hide Discover, Returned, Relevant, Select, Times;
  }

  /** A filter that predates the batch finds everything once. */
  lemma DiscoverExact(f: Filter, node: Address, logs: seq<LogEvent>, e: LogEvent)
    requires Truthy(f) && Predates(f, logs) && e in logs
    ensures Select(Discover(f, node, logs), Alike(e))
         == if Relevant(f, node, logs, e) then Select(logs, Alike(e)) else []
  {
    DiscoverOnceExactly(f, node, logs, e);
    hide Discover, Relevant, Select, Watches;
  }

  lemma DiscoverFromLogs(f: Filter, node: Address, logs: seq<LogEvent>, e: LogEvent)
    requires Truthy(f) && e in Discover(f, node, logs)
    ensures e in logs
  {
    DiscoverThree(f, node, logs);
    RoundHas(f, node, logs, e);
    RoundHas(Second(f, node, logs), node, logs, e);
    RoundHas(Third(f, node, logs), node, logs, e);
    hide Round, Discover, Second, Third;
  }

  // ---------- order ----------

  ghost predicate Precedes(s: seq<LogEvent>, a: LogEvent, b: LogEvent)
  {
    forall i, j :: 0 <= i < |s| && 0 <= j < |s| && s[i] == a && s[j] == b ==> i < j
  }

  lemma PrecedesSplit(left: seq<LogEvent>, right: seq<LogEvent>, a: LogEvent, b: LogEvent)
    requires a !in right && b !in left
    ensures Precedes(left + right, a, b)
  {
  }

  /** A network's creation comes before every event of the network. */
  lemma CreationFirst(f: Filter, node: Address, logs: seq<LogEvent>, created: LogEvent, e: LogEvent)
    requires Truthy(f) && Predates(f, logs) && created in logs && created.body.Created?
    requires e.body.Opened? || e.body.OfChannel?
    requires e.body.network == created.body.network
    requires forall channel :: !Watches(f, e.body.network, channel)
    ensures Precedes(Discover(f, node, logs), created, e)
  {
    var f1, f2 := Second(f, node, logs), Third(f, node, logs);
    var r0, r1, r2 := Round(f, node, logs), Round(f1, node, logs), Round(f2, node, logs);
    hide Round, Discover, OpenedChannels;
    DiscoverThree(f, node, logs);
    RoundHas(f, node, logs, e);
    RoundHas(f1, node, logs, created);
    RoundHas(f2, node, logs, created);
    ChildIsPlain(r0);
    ChildIsPlain(r1);
    hide Child, Truthy;
    assert r0 + r1 + r2 == r0 + (r1 + r2);
    PrecedesSplit(r0, r1 + r2, created, e);
  }

  /** A channel's opening comes before every event of the channel. */
  lemma OpeningFirst(f: Filter, node: Address, logs: seq<LogEvent>, opening: LogEvent, e: LogEvent)
    requires Truthy(f) && Predates(f, logs) && opening in logs && opening.body.Opened? && e.body.OfChannel?
    requires e.body.network == opening.body.network && e.body.channel == opening.body.channel
    ensures Precedes(Discover(f, node, logs), opening, e)
  {
    var f1, f2 := Second(f, node, logs), Third(f, node, logs);
    var r0, r1, r2 := Round(f, node, logs), Round(f1, node, logs), Round(f2, node, logs);
    hide Round, Discover, Child, Truthy, Third;
    DiscoverThree(f, node, logs);
    RoundHas(f, node, logs, e);
    RoundHas(f1, node, logs, e);
    RoundHas(f1, node, logs, opening);
    RoundHas(f2, node, logs, opening);
    SecondNetworks(f, node, logs, opening.body.network);
    SecondChannels(f, node, logs, e.body.network, e.body.channel);
    hide Second;
    assert r0 + r1 + r2 == r0 + (r1 + r2);
    if opening.body.network in f.networks {
      assert opening !in r1 by {
        assert opening.body.network !in f1.networks;
      }
      PrecedesSplit(r0, r1 + r2, opening, e);
    } else {
      PrecedesSplit(r0 + r1, r2, opening, e);
    }
  }

  // ---------- what is followed afterwards ----------

  /** What the filter gains in one round is what the round's events announce. */
  ghost predicate Gains(f: Filter, node: Address, logs: seq<LogEvent>, p: Progress, p': Progress)
  {
    (forall n :: n in p'.tracked.networks <==> n in p.tracked.networks || n in Second(f, node, logs).networks)
    && (forall n, c :: Watches(p'.tracked, n, c) <==> Watches(p.tracked, n, c) || Watches(Second(f, node, logs), n, c))
  }

  /** The loop stands before the round of `f`, or has stopped because there is nothing to find. */
  ghost predicate StandsAt(p: Progress, f: Filter, node: Address, logs: seq<LogEvent>)
  {
    (Truthy(f) || f.serviceRegistry.None?)
    && (p.next == Some(f) || (Round(f, node, logs) == [] && (p.next.None? || !Truthy(p.next.value))))
  }

  lemma UnionWatches(a: Filter, b: Filter, network: Address, channel: nat)
    requires b.secretRegistry.None? && b.serviceRegistry.None?
    ensures Watches(Union(a, b), network, channel) <==> Watches(a, network, channel) || Watches(b, network, channel)
  {
  }

  lemma AdvanceGains(f: Filter, node: Address, logs: seq<LogEvent>, p: Progress)
    requires StandsAt(p, f, node, logs)
    ensures Gains(f, node, logs, p, Advance(p, node, logs))
    ensures StandsAt(Advance(p, node, logs), Second(f, node, logs), node, logs)
  {
    var child := Child(Round(f, node, logs));
    if !Truthy(f) { QuietRound(f, node, logs); }
    ChildIsPlain(Round(f, node, logs));
    if Round(f, node, logs) == [] { QuietRound(child, node, logs); }
    forall n, c ensures Watches(Union(p.tracked, child), n, c) <==> Watches(p.tracked, n, c) || Watches(child, n, c) {
      UnionWatches(p.tracked, child, n, c);
    }
    assert child == Second(f, node, logs);
    assert child.channels == map[] ==> forall n, c :: !Watches(child, n, c);
    hide Round, Watches;
  }

  /** After a batch exactly the known networks and channels are followed. */
  lemma FollowsKnown(f: Filter, node: Address, logs: seq<LogEvent>, network: Address, channel: nat)
    requires Truthy(f)
    ensures var g := Rounds(f, node, logs, 3).tracked;
      (network in g.networks <==> KnownNetwork(f, logs, network))
      && (Watches(g, network, channel) <==> KnownChannel(f, node, logs, network, channel))
  {
    hide Second, Advance, Watches, Round, Truthy;
    var f1, f2 := Second(f, node, logs), Third(f, node, logs);
    AdvanceGains(f, node, logs, Rounds(f, node, logs, 0));
    AdvanceGains(f1, node, logs, Rounds(f, node, logs, 1));
    AdvanceGains(f2, node, logs, Rounds(f, node, logs, 2));
    SecondNetworks(f, node, logs, network);
    SecondNetworks(f1, node, logs, network);
    SecondChannels(f, node, logs, network, channel);
    SecondChannels(f1, node, logs, network, channel);
    SecondChannels(f2, node, logs, network, channel);
  }

  /** What a timeout in the second round leaves in the filter. */
  lemma TimeoutTracks(f: Filter, node: Address, logs: seq<LogEvent>, created: LogEvent)
    requires Truthy(f) && created in logs && created.body.Created? && created.body.registry in f.registries
    ensures var g := Rounds(f, node, logs, 1).tracked;
      Truthy(g) && g.registries == f.registries && created.body.network in g.networks
  {
    AdvanceGains(f, node, logs, Rounds(f, node, logs, 0));
    SecondNetworks(f, node, logs, created.body.network);
    hide Second, Round;
  }

  /** A network that is both in the filter and created in the batch has its openings returned twice. */
  lemma FollowedAndCreated(g: Filter, node: Address, logs: seq<LogEvent>, created: LogEvent, opening: LogEvent)
    requires Truthy(g) && ByBlock(logs) && created in logs && opening in logs
    requires created.body.Created? && created.body.registry in g.registries && created.body.network in g.networks
    requires opening.body.Opened? && opening.body.network == created.body.network
    requires (opening.body.first == node) != (opening.body.second == node)
    ensures !FoundOnce(g, node, logs, opening)
    ensures |Select(Discover(g, node, logs), Alike(opening))| == Times(2, |Select(logs, Alike(opening))|)
  {
    hide Discover, Second, Third, Select, Times;
    CopiesReturned(g, node, logs, opening);
    SecondNetworks(g, node, logs, opening.body.network);
  }

  /**
   How the condition fails. A timeout in the second round leaves the networks that were just created
   in the filter; the repeated batch, whatever its range, then returns the openings of such a network
   twice.
   */
  lemma RepeatedRoundDuplicates(
    f: Filter, node: Address, logs: seq<LogEvent>, again: seq<LogEvent>, created: LogEvent, opening: LogEvent)
    requires Truthy(f) && created in logs && created.body.Created? && created.body.registry in f.registries
    requires ByBlock(again) && created in again && opening in again
    requires opening.body.Opened? && opening.body.network == created.body.network
    requires (opening.body.first == node) != (opening.body.second == node)
    ensures var g := Rounds(f, node, logs, 1).tracked;
      !FoundOnce(g, node, again, opening)
      && |Select(Discover(g, node, again), Alike(opening))| == Times(2, |Select(again, Alike(opening))|)
  {
    hide Discover, Select, Times, Rounds, Truthy, FoundOnce, Alike, ByBlock;
    TimeoutTracks(f, node, logs, created);
    FollowedAndCreated(Rounds(f, node, logs, 1).tracked, node, again, created, opening);
  }
}
