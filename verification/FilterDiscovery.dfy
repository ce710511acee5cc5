/**
 One batch of blocks: the events of the known contracts, then of the contracts those events
 announce, and so on, until nothing new is announced.
 */
module FilterDiscovery {
  import opened LockCodec
  import opened LockMaps
  import opened StableSort
  import opened EventOrder

  // ---------- filters ----------

  datatype FilterData = Filter(
    registries: set<Address>,
    networks: set<Address>,
    channels: map<Address, set<nat>>,
    secretRegistry: Option<Address>,
    ignoreSecrets: bool,
    serviceRegistry: Option<Address>)

  /** `RaidenContractFilter`. No network is kept with an empty set of channels. */
  type Filter = f: FilterData | forall n :: n in f.channels ==> f.channels[n] != {}
    witness Filter({}, {}, map[], None, true, None)

  predicate Watches(f: Filter, network: Address, channel: nat)
  {
    network in f.channels && channel in f.channels[network]
  }

  /** `__bool__`. */
  predicate Truthy(f: Filter)
  {
    f.registries != {} || f.networks != {} || f.channels != map[] || f.secretRegistry.Some?
  }

  datatype Query =
    | Networks(registries: set<Address>)
    | Secrets(secretRegistry: Address)
    | OpenedByFirst(networks: set<Address>)
    | OpenedBySecond(networks: set<Address>)
    | Channels(network: Address, channels: set<nat>)
    | Services(serviceRegistry: Address)

  predicate Matches(q: Query, node: Address, e: LogEvent)
  {
    match (q, e.body)
    case (Networks(registries), Created(registry, _)) => registry in registries
    case (Secrets(a), Revealed(b)) => a == b
    case (OpenedByFirst(networks), Opened(network, _, first, _)) => network in networks && first == node
    case (OpenedBySecond(networks), Opened(network, _, _, second)) => network in networks && second == node
    case (Channels(a, channels), OfChannel(b, channel, _)) => a == b && channel in channels
    case (Services(a), Registered(b)) => a == b
    case _ => false
  }

  /** One query per network; the order of the dictionary does not matter. */
  function ChannelQueries(m: map<Address, set<nat>>): seq<Query>
    decreases m.Keys
  {
    if m.Keys == {} then []
    else
      var n := Least(m.Keys);
      [Channels(n, m[n])] + ChannelQueries(m - {n})
  }

  /** `to_web3_filters`. */
  function Queries(f: Filter): seq<Query>
  {
    (if f.registries != {} then [Networks(f.registries)] else [])
    + (if f.secretRegistry.Some? && !f.ignoreSecrets then [Secrets(f.secretRegistry.value)] else [])
    + (if f.networks != {} then [OpenedByFirst(f.networks), OpenedBySecond(f.networks)] else [])
    + ChannelQueries(f.channels)
    + (if f.serviceRegistry.Some? then [Services(f.serviceRegistry.value)] else [])
  }

  /** The channels that events announce, as `new_filters_from_events` collects them. */
  function OpenedChannels(events: seq<LogEvent>): (m: map<Address, set<nat>>)
    ensures forall n :: n in m ==> m[n] != {}
    decreases |events|
  {
    if events == [] then map[]
    else
      var m := OpenedChannels(events[..|events| - 1]);
      var body := events[|events| - 1].body;
      if body.Opened? then
        m[body.network := (if body.network in m then m[body.network] else {}) + {body.channel}]
      else m
  }

  function CreatedNetworks(events: seq<LogEvent>): set<Address>
  {
    set e | e in events && e.body.Created? :: e.body.network
  }

  /** `new_filters_from_events`: neither registries nor the secret registry are handed down. */
  function Child(events: seq<LogEvent>): Filter
  {
    var channels := OpenedChannels(events);
    Filter({}, CreatedNetworks(events), channels, None, channels == map[], None)
  }

  method NewFiltersFromEvents(events: seq<LogEvent>) returns (f: Filter)
    ensures f == Child(events)
  {
    f := Filter({}, set e | e in events && e.body.Created? :: e.body.network, map[], None, true, None);
    for i := 0 to |events|
      invariant f.channels == OpenedChannels(events[..i])
      invariant f.(channels := map[], ignoreSecrets := true) == Filter({}, CreatedNetworks(events), map[], None, true, None)
      invariant f.ignoreSecrets <==> f.channels == map[]
    {
      assert events[..i + 1][..i] == events[..i];
      var body := events[i].body;
      if body.Opened? {
        var known := if body.network in f.channels then f.channels[body.network] else {};
        f := f.(channels := f.channels[body.network := known + {body.channel}], ignoreSecrets := false);
        assert body.network in f.channels;
      }
    }
    assert events[..|events|] == events;
  }

  /** `union`, for filters that do not name different registries of secrets or services. */
  function Union(a: Filter, b: Filter): Filter
    requires a.secretRegistry.None? || b.secretRegistry.None? || a.secretRegistry == b.secretRegistry
    requires a.serviceRegistry.None? || b.serviceRegistry.None? || a.serviceRegistry == b.serviceRegistry
  {
    Filter(
      a.registries + b.registries,
      a.networks + b.networks,
      map n | n in a.channels.Keys + b.channels.Keys ::
        (if n in a.channels then a.channels[n] else {}) + (if n in b.channels then b.channels[n] else {}),
      if a.secretRegistry.Some? then a.secretRegistry else b.secretRegistry,
      a.ignoreSecrets && b.ignoreSecrets,
      if a.serviceRegistry.Some? then a.serviceRegistry else b.serviceRegistry)
  }

  // ---------- rounds ----------

  function Results(queries: seq<Query>, node: Address, logs: seq<LogEvent>): (r: seq<LogEvent>)
  {
    if queries == [] then []
    else Select(logs, e => Matches(queries[0], node, e)) + Results(queries[1..], node, logs)
  }

  function Round(f: Filter, node: Address, logs: seq<LogEvent>): seq<LogEvent>
  {
    Sorted(Results(Queries(f), node, logs))
  }

  /** Later rounds have less to look for. */
  function Rank(f: Filter): (r: nat)
    ensures r <= 3 && (Truthy(f) <==> r > 0)
  {
    if f.registries != {} then 3 else if f.networks != {} then 2 else if Truthy(f) then 1 else 0
  }

  lemma {:induction false} ResultsMatch(queries: seq<Query>, node: Address, logs: seq<LogEvent>, e: LogEvent)
    ensures e in Results(queries, node, logs) <==> e in logs && exists i :: 0 <= i < |queries| && Matches(queries[i], node, e)
  {
    if queries != [] {
      ResultsMatch(queries[1..], node, logs, e);
      if exists i :: 0 <= i < |queries| && Matches(queries[i], node, e) {
        var i :| 0 <= i < |queries| && Matches(queries[i], node, e);
        assert i > 0 ==> queries[1..][i - 1] == queries[i];
      }
    }
  }

  lemma {:induction false} OpenedChannelsFrom(events: seq<LogEvent>, network: Address, channel: nat)
    ensures network in OpenedChannels(events) && channel in OpenedChannels(events)[network]
       <==> exists e :: e in events && e.body.Opened? && e.body.network == network && e.body.channel == channel
    decreases |events|
  {
    if events != [] {
      var last := events[|events| - 1];
      assert events == events[..|events| - 1] + [last];
      OpenedChannelsFrom(events[..|events| - 1], network, channel);
    }
  }

  lemma {:induction false} NothingOpened(events: seq<LogEvent>)
    requires forall e :: e in events ==> !e.body.Opened?
    ensures OpenedChannels(events) == map[]
    decreases |events|
  {
    if events != [] {
      NothingOpened(events[..|events| - 1]);
    }
  }

  lemma {:induction false} ChannelQueriesOnly(m: map<Address, set<nat>>)
    ensures forall q :: q in ChannelQueries(m) ==> q.Channels?
    decreases m.Keys
  {
    if m.Keys != {} {
      var n := Least(m.Keys);
      ChannelQueriesOnly(m - {n});
    }
  }

  lemma QueriesAsked(f: Filter)
    ensures forall q :: q in Queries(f) ==>
      (q.Networks? ==> f.registries != {}) && (q.OpenedByFirst? || q.OpenedBySecond? ==> f.networks != {})
  {
    ChannelQueriesOnly(f.channels);
  }

  lemma RankFalls(f: Filter, node: Address, logs: seq<LogEvent>)
    requires Truthy(f)
    ensures Rank(Child(Round(f, node, logs))) < Rank(f)
  {
    var events := Round(f, node, logs);
    QueriesAsked(f);
    hide Queries;
    if f.registries == {} {
      forall e | e in events ensures !e.body.Created? && (f.networks == {} ==> !e.body.Opened?) {
        ResultsMatch(Queries(f), node, logs, e);
        var i :| 0 <= i < |Queries(f)| && Matches(Queries(f)[i], node, e);
        assert Queries(f)[i] in Queries(f);
      }
      if f.networks == {} { NothingOpened(events); }
    }
  }

  /** Everything the loop returns. */
  function Discover(f: Filter, node: Address, logs: seq<LogEvent>): seq<LogEvent>
    decreases Rank(f)
  {
    if !Truthy(f) then []
    else
      var events := Round(f, node, logs);
      if events == [] then []
      else
        RankFalls(f, node, logs);
        events + Discover(Child(events), node, logs)
  }

  /** The loop between two rounds: the filter to query next, all filters so far, and the result. */
  datatype Progress = Progress(next: Option<Filter>, tracked: Filter, result: seq<LogEvent>)

  function Advance(p: Progress, node: Address, logs: seq<LogEvent>): Progress
  {
    if p.next.None? || !Truthy(p.next.value) then p
    else
      var events := Round(p.next.value, node, logs);
      if events == [] then p.(next := None)
      else
        var child := Child(events);
        Progress(Some(child), Union(p.tracked, child), p.result + events)
  }

  function Rounds(f: Filter, node: Address, logs: seq<LogEvent>, n: nat): Progress
  {
    if n == 0 then Progress(Some(f), f, []) else Advance(Rounds(f, node, logs, n - 1), node, logs)
  }

  function Remaining(p: Progress, node: Address, logs: seq<LogEvent>): seq<LogEvent>
  {
    if p.next.Some? then Discover(p.next.value, node, logs) else []
  }

  lemma AdvanceDiscovers(p: Progress, node: Address, logs: seq<LogEvent>)
    ensures p.result + Remaining(p, node, logs)
         == Advance(p, node, logs).result + Remaining(Advance(p, node, logs), node, logs)
  {
    hide Round, Union, Child;
  }

  lemma {:induction false} RoundsDiscover(f: Filter, node: Address, logs: seq<LogEvent>, n: nat)
    ensures var p := Rounds(f, node, logs, n); Discover(f, node, logs) == p.result + Remaining(p, node, logs)
  {
    hide Discover, Advance;
    if n > 0 {
      RoundsDiscover(f, node, logs, n - 1);
      AdvanceDiscovers(Rounds(f, node, logs, n - 1), node, logs);
    }
  }

  /** Once the loop has stopped, further rounds change nothing. */
  lemma {:induction false} RoundsStop(f: Filter, node: Address, logs: seq<LogEvent>, n: nat, m: nat)
    requires n <= m
    requires var next := Rounds(f, node, logs, n).next; next.None? || !Truthy(next.value)
    ensures Rounds(f, node, logs, m) == Rounds(f, node, logs, n)
  {
    hide Round, Truthy, Child, Union;
    if n < m {
      RoundsStop(f, node, logs, n, m - 1);
    }
  }

  class Tracker {
    var eventFilter: Filter
    const node: Address

    constructor (f: Filter, node: Address)
      ensures eventFilter == f && this.node == node
    {
      eventFilter, this.node := f, node;
    }

    /**
     `_query_and_track`, which ends within three rounds. A read timeout in some round raises, and
     leaves the filters found in the rounds before it in place.
     */
    method QueryAndTrack(logs: seq<LogEvent>, timeoutIn: Option<nat>) returns (r: Option<seq<LogEvent>>, rounds: nat)
      modifies this
      ensures rounds <= 3
      ensures eventFilter == Rounds(old(eventFilter), node, logs, rounds).tracked
      ensures r.Some? ==> r.value == Discover(old(eventFilter), node, logs)
      ensures r.Some? ==> eventFilter == Rounds(old(eventFilter), node, logs, 3).tracked
      ensures r.None? ==> timeoutIn == Some(rounds)
    {
      hide Round, Union, OpenedChannels, Rank, Truthy;
      var result: seq<LogEvent> := [];
      var f := Some(eventFilter);
      rounds := 0;
      while f.Some? && Truthy(f.value)
        invariant rounds + (if f.Some? then Rank(f.value) else 0) <= 3
        invariant Progress(f, eventFilter, result) == Rounds(old(eventFilter), node, logs, rounds)
        decreases if f.Some? then 1 + Rank(f.value) else 0
      {
        if timeoutIn == Some(rounds) {
          return None, rounds;
        }
        var events := Round(f.value, node, logs);
        if events != [] {
          RankFalls(f.value, node, logs);
          result := result + events;
          var child := NewFiltersFromEvents(events);
          eventFilter := Union(eventFilter, child);
          f := Some(child);
        } else {
          f := None;
        }
        rounds := rounds + 1;
      }
      RoundsDiscover(old(eventFilter), node, logs, rounds);
      RoundsStop(old(eventFilter), node, logs, rounds, 3);
      return Some(result), rounds;
    }
  }
}
