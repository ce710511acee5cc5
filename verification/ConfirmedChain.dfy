/**
 What a node hands to its log while it follows the chain batch by batch: for each kind of event,
 exactly what happened on the chain, if and only if the filters were never ahead of the log. The
 filters are those of the node as it really runs, with read timeouts in any round and restarts.
 */
module ConfirmedChain {
  import opened LockCodec
  import opened StableSort
  import opened EventOrder
  import opened FilterDiscovery
  import opened DiscoveryOrder

  /** The logs of each confirmed block. */
  type Logs = nat -> seq<LogEvent>

  /** The node, the contracts it is configured with, and the block its first start begins behind. */
  datatype Setup = Setup(
    node: Address, registry: Address, secretRegistry: Address, serviceRegistry: Option<Address>, start: nat)

  // ---------- the chain ----------

  ghost predicate OnChain(logs: Logs, e: LogEvent) { e in logs(e.block) }

  predicate InNetwork(e: LogEvent, network: Address)
  {
    (e.body.Opened? || e.body.OfChannel?) && e.body.network == network
  }

  predicate InChannel(e: LogEvent, network: Address, channel: nat)
  {
    e.body.OfChannel? && e.body.network == network && e.body.channel == channel
  }

  predicate Opens(e: LogEvent, node: Address, network: Address, channel: nat)
  {
    && e.body.Opened? && e.body.network == network && e.body.channel == channel
    && (e.body.first == node || e.body.second == node)
  }

  /**
   The order the contracts enforce: a network's creation, its events; a channel's opening, its events;
   any event of a channel, its final one.
   */
  predicate Earlier(a: LogEvent, b: LogEvent)
  {
    || (a.body.Created? && InNetwork(b, a.body.network))
    || (a.body.Opened? && InChannel(b, a.body.network, a.body.channel))
    || (b.body.OfChannel? && b.body.final && InChannel(a, b.body.network, b.body.channel))
  }

  /** Both create the same network, or open the same channel. */
  predicate SameContract(a: LogEvent, b: LogEvent)
  {
    (a.body.Created? && b.body.Created? && a.body.network == b.body.network) || SameOpening(a, b)
  }

  /** What the contracts guarantee; a channel joins two different participants. */
  ghost predicate WellFormed(logs: Logs)
  {
    && (forall b, e :: e in logs(b) ==> e.block == b)
    && (forall a, b :: OnChain(logs, a) && OnChain(logs, b) && Earlier(a, b) ==> a.block <= b.block)
    && (forall a, b :: OnChain(logs, a) && OnChain(logs, b) && SameContract(a, b) ==> a == b)
    && (forall e :: OnChain(logs, e) && e.body.Opened? ==> e.body.first != e.body.second)
  }

  lemma OnlyOne(logs: Logs, a: LogEvent, b: LogEvent)
    requires WellFormed(logs) && OnChain(logs, a) && OnChain(logs, b) && SameContract(a, b)
    ensures a == b
  {
  }

  lemma InOrder(logs: Logs, a: LogEvent, b: LogEvent)
    requires WellFormed(logs) && OnChain(logs, a) && OnChain(logs, b) && Earlier(a, b)
    ensures a.block <= b.block
  {
  }

  /** The logs of the blocks from `first` to `last`. */
  function Mined(logs: Logs, first: nat, last: int): seq<LogEvent>
    decreases last - first
  {
    if last < first then [] else Mined(logs, first, last - 1) + logs(last)
  }

  lemma {:induction false} MinedSplit(logs: Logs, first: nat, middle: int, last: int)
    requires first - 1 <= middle <= last
    ensures Mined(logs, first, last) == Mined(logs, first, middle) + Mined(logs, middle + 1, last)
    decreases last - middle
  {
    if middle < last {
      MinedSplit(logs, first, middle, last - 1);
    }
  }

  lemma {:induction false} MinedHas(logs: Logs, first: nat, last: int, e: LogEvent)
    requires WellFormed(logs)
    ensures e in Mined(logs, first, last) <==> OnChain(logs, e) && first <= e.block <= last
    decreases last - first
  {
    if first <= last {
      MinedHas(logs, first, last - 1, e);
    }
  }

  lemma {:induction false} MinedByBlock(logs: Logs, first: nat, last: int)
    requires WellFormed(logs)
    ensures ByBlock(Mined(logs, first, last))
    decreases last - first
  {
    if first <= last {
      MinedByBlock(logs, first, last - 1);
      var before := Mined(logs, first, last - 1);
      forall e | e in before ensures e.block < last { MinedHas(logs, first, last - 1, e); }
      assert forall i :: 0 <= i < |before| ==> before[i] in before;
      assert forall i :: 0 <= i < |logs(last)| ==> logs(last)[i] in logs(last);
    }
  }

  // ---------- what the node is to follow ----------

  /** The registry creates the network, at this block or before. */
  ghost predicate CreatedBy(s: Setup, logs: Logs, network: Address, last: nat)
  {
    exists e :: OnChain(logs, e) && e.body == Created(s.registry, network) && s.start < e.block <= last
  }

  ghost predicate CreatedEver(s: Setup, logs: Logs, network: Address)
  {
    exists last :: CreatedBy(s, logs, network, last)
  }

  /** The node opens the channel, in a network of the registry, at this block or before. */
  ghost predicate OpenedBy(s: Setup, logs: Logs, network: Address, channel: nat, last: nat)
  {
    CreatedBy(s, logs, network, last)
    && exists e :: OnChain(logs, e) && Opens(e, s.node, network, channel) && s.start < e.block <= last
  }

  ghost predicate OpenedEver(s: Setup, logs: Logs, network: Address, channel: nat)
  {
    exists last :: OpenedBy(s, logs, network, channel, last)
  }

  ghost predicate FinalBy(logs: Logs, network: Address, channel: nat, last: nat)
  {
    exists e :: OnChain(logs, e) && InChannel(e, network, channel) && e.body.final && e.block <= last
  }

  /** The events of the chain that concern the node. */
  ghost predicate Concerns(s: Setup, logs: Logs, e: LogEvent)
  {
    match e.body
    case Created(registry, _) => registry == s.registry
    case Opened(network, _, first, second) => CreatedEver(s, logs, network) && (first == s.node || second == s.node)
    case OfChannel(network, channel, _) => OpenedEver(s, logs, network, channel)
    case Registered(registry) => s.serviceRegistry == Some(registry)
    case _ => false
  }

  // ---------- filters ----------

  /** No channel without its network; secrets are of interest once there is a channel. */
  predicate Housed(f: Filter)
  {
    (forall n :: n in f.channels ==> n in f.networks) && (f.ignoreSecrets <==> f.channels == map[])
  }

  ghost predicate Within(f: Filter, g: Filter)
  {
    && f.registries == g.registries && f.secretRegistry == g.secretRegistry && f.serviceRegistry == g.serviceRegistry
    && f.networks <= g.networks
    && forall n, c :: Watches(f, n, c) ==> Watches(g, n, c)
  }

  /**
   The filter of a node that has processed everything up to `block`. It follows all that has been
   announced by then and is not over, and nothing that never will be. It may be ahead: of what it
   follows some may have been announced in later blocks, which a timeout has kept from the log.
   */
  ghost predicate Covers(s: Setup, logs: Logs, f: Filter, block: nat)
  {
    && f.registries == {s.registry} && f.secretRegistry == Some(s.secretRegistry)
    && f.serviceRegistry == s.serviceRegistry && Housed(f)
    && (forall n :: CreatedBy(s, logs, n, block) ==> n in f.networks)
    && (forall n :: n in f.networks ==> CreatedEver(s, logs, n))
    && (forall n, c :: OpenedBy(s, logs, n, c, block) && !FinalBy(logs, n, c, block) ==> Watches(f, n, c))
    && (forall n, c :: Watches(f, n, c) ==> OpenedEver(s, logs, n, c))
  }

  /** It is not ahead. */
  ghost predicate UpToDate(s: Setup, logs: Logs, f: Filter, block: nat)
  {
    && (forall n :: n in f.networks ==> CreatedBy(s, logs, n, block))
    && (forall n, c :: Watches(f, n, c) ==> OpenedBy(s, logs, n, c, block))
  }

  // ---------- rounds ----------

  lemma ChildHoused(g: Filter, node: Address, logs: seq<LogEvent>)
    ensures var child := Child(Round(g, node, logs)); forall n :: n in child.channels ==> n in g.networks
  {
    var events := Round(g, node, logs);
    var child := Child(events);
    forall n | n in child.channels ensures n in g.networks {
      var c :| c in child.channels[n];
      OpenedChannelsFrom(events, n, c);
      var e :| e in events && e.body.Opened? && e.body.network == n && e.body.channel == c;
      RoundHas(g, node, logs, e);
    }
  }

  lemma UnionHoused(f: Filter, child: Filter)
    requires Housed(f) && child.secretRegistry.None? && child.serviceRegistry.None? && child.registries == {}
    requires (child.ignoreSecrets <==> child.channels == map[]) && forall n :: n in child.channels ==> n in f.networks
    ensures Housed(Union(f, child)) && Within(f, Union(f, child))
  {
    var u := Union(f, child);
    assert u.channels.Keys == f.channels.Keys + child.channels.Keys;
    assert u.channels == map[] <==> u.channels.Keys == {};
    assert f.channels == map[] <==> f.channels.Keys == {};
    assert child.channels == map[] <==> child.channels.Keys == {};
    forall n, c | Watches(f, n, c) ensures Watches(u, n, c) { UnionWatches(f, child, n, c); }
  }

  lemma AdvanceGrows(p: Progress, node: Address, logs: seq<LogEvent>)
    requires Housed(p.tracked) && (p.next.Some? ==> p.next.value.networks <= p.tracked.networks)
    ensures var q := Advance(p, node, logs);
      Housed(q.tracked) && (q.next.Some? ==> q.next.value.networks <= q.tracked.networks) && Within(p.tracked, q.tracked)
  {
    if p.next.Some? && Truthy(p.next.value) && Round(p.next.value, node, logs) != [] {
      hide Round, OpenedChannels, CreatedNetworks, Housed;
      ChildHoused(p.next.value, node, logs);
      UnionHoused(p.tracked, Child(Round(p.next.value, node, logs)));
    }
  }

  /** However many rounds are done, the filter only grows, at most to what three rounds give. */
  lemma {:induction false} RoundsGrow(f: Filter, node: Address, logs: seq<LogEvent>, k: nat)
    requires Housed(f)
    ensures var p := Rounds(f, node, logs, k);
      Housed(p.tracked) && (p.next.Some? ==> p.next.value.networks <= p.tracked.networks) && Within(f, p.tracked)
    decreases k
  {
    hide Advance;
    if k > 0 {
      RoundsGrow(f, node, logs, k - 1);
      AdvanceGrows(Rounds(f, node, logs, k - 1), node, logs);
    }
  }

  lemma {:induction false} RoundsWithin(f: Filter, node: Address, logs: seq<LogEvent>, k: nat, m: nat)
    requires Housed(f) && k <= m
    ensures Within(Rounds(f, node, logs, k).tracked, Rounds(f, node, logs, m).tracked)
    decreases m
  {
    hide Advance, Housed;
    if k < m {
      RoundsWithin(f, node, logs, k, m - 1);
      RoundsGrow(f, node, logs, m - 1);
      AdvanceGrows(Rounds(f, node, logs, m - 1), node, logs);
    }
  }

  // ---------- what a batch knows ----------

  lemma CreatedLater(s: Setup, logs: Logs, network: Address, block: nat, last: nat)
    requires CreatedBy(s, logs, network, block) && block <= last
    ensures CreatedBy(s, logs, network, last) && CreatedEver(s, logs, network)
  {
  }

  lemma OpenedLater(s: Setup, logs: Logs, network: Address, channel: nat, block: nat, last: nat)
    requires OpenedBy(s, logs, network, channel, block) && block <= last
    ensures OpenedBy(s, logs, network, channel, last) && OpenedEver(s, logs, network, channel)
  {
    CreatedLater(s, logs, network, block, last);
  }

  /** A batch behind `block` knows every network created by its end, and none that never is. */
  lemma NetworksKnown(s: Setup, logs: Logs, f: Filter, block: nat, last: nat, network: Address)
    requires WellFormed(logs) && Covers(s, logs, f, block) && s.start <= block <= last
    ensures var here := Mined(logs, block + 1, last);
      (CreatedBy(s, logs, network, last) ==> KnownNetwork(f, here, network))
      && (KnownNetwork(f, here, network) ==> CreatedEver(s, logs, network))
      && (UpToDate(s, logs, f, block) && KnownNetwork(f, here, network) ==> CreatedBy(s, logs, network, last))
  {
    hide WellFormed, Mined;
    var here := Mined(logs, block + 1, last);
    forall e ensures e in here <==> OnChain(logs, e) && block + 1 <= e.block <= last {
      MinedHas(logs, block + 1, last, e);
    }
    if CreatedBy(s, logs, network, last) {
      var e :| OnChain(logs, e) && e.body == Created(s.registry, network) && s.start < e.block <= last;
      assert e.block <= block ==> CreatedBy(s, logs, network, block);
    }
    if KnownNetwork(f, here, network) && network !in f.networks {
      assert CreatedBy(s, logs, network, last);
    }
    if UpToDate(s, logs, f, block) && network in f.networks { CreatedLater(s, logs, network, block, last); }
  }

  /** And every channel the node opens by then, unless it is over. */
  lemma ChannelsKnown(s: Setup, logs: Logs, f: Filter, block: nat, last: nat, network: Address, channel: nat)
    requires WellFormed(logs) && Covers(s, logs, f, block) && s.start <= block <= last
    ensures var here := Mined(logs, block + 1, last);
      (OpenedBy(s, logs, network, channel, last) && !FinalBy(logs, network, channel, block) ==>
         KnownChannel(f, s.node, here, network, channel))
      && (KnownChannel(f, s.node, here, network, channel) ==> OpenedEver(s, logs, network, channel))
      && (UpToDate(s, logs, f, block) && KnownChannel(f, s.node, here, network, channel) ==>
            OpenedBy(s, logs, network, channel, last))
  {
    hide Mined, WellFormed;
    var here := Mined(logs, block + 1, last);
    NetworksKnown(s, logs, f, block, last, network);
    forall e ensures e in here <==> OnChain(logs, e) && block + 1 <= e.block <= last {
      MinedHas(logs, block + 1, last, e);
    }
    if OpenedBy(s, logs, network, channel, last) && !FinalBy(logs, network, channel, block) {
      var e :| OnChain(logs, e) && Opens(e, s.node, network, channel) && s.start < e.block <= last;
      var c :| OnChain(logs, c) && c.body == Created(s.registry, network) && s.start < c.block <= last;
      InOrder(logs, c, e);
      if e.block <= block { assert OpenedBy(s, logs, network, channel, block); }
    }
    hide KnownNetwork;
    if KnownChannel(f, s.node, here, network, channel) && !Watches(f, network, channel) {
      OpenedHereEver(s, logs, f, block, last, network, channel);
    }
    if UpToDate(s, logs, f, block) && Watches(f, network, channel) {
      OpenedLater(s, logs, network, channel, block, last);
    }
  }

  lemma OpenedHereEver(s: Setup, logs: Logs, f: Filter, block: nat, last: nat, network: Address, channel: nat)
    requires WellFormed(logs) && Covers(s, logs, f, block) && s.start <= block <= last
    requires var here := Mined(logs, block + 1, last);
      OpenedHere(s.node, here, network, channel) && KnownNetwork(f, here, network)
    ensures OpenedEver(s, logs, network, channel)
    ensures CreatedBy(s, logs, network, last) ==> OpenedBy(s, logs, network, channel, last)
  {
    hide Mined, WellFormed;
    var here := Mined(logs, block + 1, last);
    var e :| e in here && e.body.Opened? && e.body.network == network && e.body.channel == channel
      && (e.body.first == s.node || e.body.second == s.node);
    MinedHas(logs, block + 1, last, e);
    NetworksKnown(s, logs, f, block, last, network);
    var top: nat :| CreatedBy(s, logs, network, top);
    assert OnChain(logs, e) && Opens(e, s.node, network, channel);
    CreatedLater(s, logs, network, top, top + last);
    assert OpenedBy(s, logs, network, channel, top + last);
  }

  /** Rounds that end in a timeout leave a filter that still covers the log. */
  lemma RoundsCover(s: Setup, logs: Logs, f: Filter, block: nat, last: nat, k: nat)
    requires WellFormed(logs) && Covers(s, logs, f, block) && s.start <= block <= last && k <= 3
    ensures Covers(s, logs, Rounds(f, s.node, Mined(logs, block + 1, last), k).tracked, block)
    ensures k == 0 ==> Rounds(f, s.node, Mined(logs, block + 1, last), k).tracked == f
  {
    var here := Mined(logs, block + 1, last);
    var g, all := Rounds(f, s.node, here, k).tracked, Rounds(f, s.node, here, 3).tracked;
    assert Truthy(f) && Housed(f);
    RoundsGrow(f, s.node, here, k);
    RoundsWithin(f, s.node, here, k, 3);
    hide WellFormed, Mined, Rounds, Watches, KnownNetwork, KnownChannel, Housed;
    forall n | n in g.networks ensures CreatedEver(s, logs, n) {
      FollowsKnown(f, s.node, here, n, 0);
      NetworksKnown(s, logs, f, block, last, n);
    }
    forall n, c | Watches(g, n, c) ensures OpenedEver(s, logs, n, c) {
      FollowsKnown(f, s.node, here, n, c);
      ChannelsKnown(s, logs, f, block, last, n, c);
    }
  }

  /** The rounds of a whole batch leave one that covers the log with that batch. */
  lemma BatchCovers(s: Setup, logs: Logs, f: Filter, block: nat, last: nat)
    requires WellFormed(logs) && Covers(s, logs, f, block) && s.start <= block <= last
    ensures var g := Rounds(f, s.node, Mined(logs, block + 1, last), 3).tracked;
      Covers(s, logs, g, last) && (UpToDate(s, logs, f, block) ==> UpToDate(s, logs, g, last))
  {
    var here := Mined(logs, block + 1, last);
    var g := Rounds(f, s.node, here, 3).tracked;
    assert Truthy(f);
    RoundsCover(s, logs, f, block, last, 3);
    hide WellFormed, Mined, Rounds, Watches, KnownNetwork, KnownChannel, Housed;
    forall n
      ensures CreatedBy(s, logs, n, last) ==> n in g.networks
      ensures UpToDate(s, logs, f, block) && n in g.networks ==> CreatedBy(s, logs, n, last)
    {
      FollowsKnown(f, s.node, here, n, 0);
      NetworksKnown(s, logs, f, block, last, n);
    }
    forall n, c
      ensures OpenedBy(s, logs, n, c, last) && !FinalBy(logs, n, c, last) ==> Watches(g, n, c)
      ensures UpToDate(s, logs, f, block) && Watches(g, n, c) ==> OpenedBy(s, logs, n, c, last)
    {
      FollowsKnown(f, s.node, here, n, c);
      ChannelsKnown(s, logs, f, block, last, n, c);
      FinalLater(logs, n, c, block, last);
    }
  }

  lemma FinalLater(logs: Logs, network: Address, channel: nat, block: nat, last: nat)
    requires block <= last
    ensures FinalBy(logs, network, channel, block) ==> FinalBy(logs, network, channel, last)
  {
  }

  /** What a batch finds relevant is what concerns the node, whichever batch the event is in. */
  lemma RelevantHere(s: Setup, logs: Logs, f: Filter, block: nat, last: nat, e: LogEvent)
    requires WellFormed(logs) && Covers(s, logs, f, block) && s.start <= block <= last
    requires e in Mined(logs, block + 1, last) && !e.body.Revealed?
    ensures Relevant(f, s.node, Mined(logs, block + 1, last), e) <==> Concerns(s, logs, e)
  {
    hide Mined, KnownNetwork, KnownChannel;
    MinedHas(logs, block + 1, last, e);
    if e.body.Opened? {
      NetworksKnown(s, logs, f, block, last, e.body.network);
      if CreatedEver(s, logs, e.body.network) { CreatedBefore(s, logs, e, last); }
    } else if e.body.OfChannel? {
      ChannelsKnown(s, logs, f, block, last, e.body.network, e.body.channel);
      if OpenedEver(s, logs, e.body.network, e.body.channel) { OpenedBefore(s, logs, e, block, last); }
    }
  }

  lemma CreatedBefore(s: Setup, logs: Logs, e: LogEvent, last: nat)
    requires WellFormed(logs) && OnChain(logs, e) && (e.body.Opened? || e.body.OfChannel?) && e.block <= last
    requires CreatedEver(s, logs, e.body.network)
    ensures CreatedBy(s, logs, e.body.network, last)
  {
    hide WellFormed;
    var top: nat :| CreatedBy(s, logs, e.body.network, top);
    var c :| OnChain(logs, c) && c.body == Created(s.registry, e.body.network) && s.start < c.block <= top;
    InOrder(logs, c, e);
  }

  lemma OpenedBefore(s: Setup, logs: Logs, e: LogEvent, block: nat, last: nat)
    requires WellFormed(logs) && OnChain(logs, e) && e.body.OfChannel? && block < e.block <= last
    requires OpenedEver(s, logs, e.body.network, e.body.channel)
    ensures OpenedBy(s, logs, e.body.network, e.body.channel, last)
    ensures !FinalBy(logs, e.body.network, e.body.channel, block)
  {
    hide WellFormed;
    var network, channel := e.body.network, e.body.channel;
    var top: nat :| OpenedBy(s, logs, network, channel, top);
    CreatedBefore(s, logs, e, last);
    var o :| OnChain(logs, o) && Opens(o, s.node, network, channel) && s.start < o.block <= top;
    InOrder(logs, o, e);
    forall x | OnChain(logs, x) && InChannel(x, network, channel) && x.body.final ensures x.block > block {
      InOrder(logs, e, x);
    }
  }

  // ---------- commits ----------

  /** A committed batch: the filter it was asked with, the block it begins behind, and its last block. */
  datatype Commit = Committed(filter: Filter, block: nat, last: nat)

  function MinedIn(logs: Logs, c: Commit): seq<LogEvent> { Mined(logs, c.block + 1, c.last) }

  /** What the batch hands to the log. */
  function Handed(s: Setup, logs: Logs, c: Commit): seq<LogEvent>
  {
    Discover(c.filter, s.node, MinedIn(logs, c))
  }

  function AllHanded(s: Setup, logs: Logs, commits: seq<Commit>): seq<LogEvent>
    decreases commits
  {
    if commits == [] then [] else Handed(s, logs, commits[0]) + AllHanded(s, logs, commits[1..])
  }

  ghost predicate CoveredBatch(s: Setup, logs: Logs, c: Commit)
  {
    s.start <= c.block < c.last && Covers(s, logs, c.filter, c.block)
  }

  /** The commits of a node behind `block`: range after range up to `last`, each with a filter that covers the log. */
  ghost predicate Chained(s: Setup, logs: Logs, block: nat, commits: seq<Commit>, last: nat)
    decreases commits
  {
    if commits == [] then block == last
    else
      && commits[0].block == block && CoveredBatch(s, logs, commits[0])
      && Chained(s, logs, commits[0].last, commits[1..], last)
  }

  /**
   The filter follows the network or the channel of the event although the log has not announced it:
   an earlier attempt at the batch has left it there.
   */
  ghost predicate Ahead(s: Setup, logs: Logs, c: Commit, e: LogEvent)
  {
    match e.body
    case Opened(network, _, _, _) => network in c.filter.networks && !CreatedBy(s, logs, network, c.block)
    case OfChannel(network, channel, _) =>
      (network in c.filter.networks && !CreatedBy(s, logs, network, c.block))
      || (Watches(c.filter, network, channel) && !OpenedBy(s, logs, network, channel, c.block))
    case _ => false
  }

  lemma CreatedHereExactly(s: Setup, logs: Logs, c: Commit, network: Address)
    requires WellFormed(logs) && CoveredBatch(s, logs, c) && CreatedBy(s, logs, network, c.last)
    ensures CreatedHere(c.filter, MinedIn(logs, c), network) <==> !CreatedBy(s, logs, network, c.block)
  {
    assert c.filter.registries == {s.registry} && s.start <= c.block;
    hide Mined, WellFormed, CoveredBatch, Covers;
    var e :| OnChain(logs, e) && e.body == Created(s.registry, network) && s.start < e.block <= c.last;
    MinedHas(logs, c.block + 1, c.last, e);
    forall x | OnChain(logs, x) && x.body.Created? && x.body.network == network ensures x == e {
      OnlyOne(logs, x, e);
    }
    forall x | x in MinedIn(logs, c) ensures OnChain(logs, x) { MinedHas(logs, c.block + 1, c.last, x); }
  }

  /** One opening decides. */
  lemma OpenedWhen(s: Setup, logs: Logs, e: LogEvent, network: Address, channel: nat, block: nat, last: nat)
    requires WellFormed(logs) && OnChain(logs, e) && Opens(e, s.node, network, channel) && s.start < e.block
    requires CreatedEver(s, logs, network)
    ensures OpenedBy(s, logs, network, channel, block) <==> e.block <= block
    ensures OpenedBy(s, logs, network, channel, block) ==> CreatedBy(s, logs, network, block)
    ensures OpenedHere(s.node, Mined(logs, block + 1, last), network, channel) <==> block < e.block <= last
  {
    hide WellFormed, Mined, CreatedBy, CreatedEver;
    if e.block <= block { CreatedBefore(s, logs, e, block); }
    if OpenedBy(s, logs, network, channel, block) {
      var x :| OnChain(logs, x) && Opens(x, s.node, network, channel) && s.start < x.block <= block;
      OnlyOne(logs, x, e);
    }
    MinedHas(logs, block + 1, last, e);
    if OpenedHere(s.node, Mined(logs, block + 1, last), network, channel) {
      var x :| x in Mined(logs, block + 1, last) && x.body.Opened? && x.body.network == network
        && x.body.channel == channel && (x.body.first == s.node || x.body.second == s.node);
      MinedHas(logs, block + 1, last, x);
      OnlyOne(logs, x, e);
    }
  }

  lemma OpenedHereExactly(s: Setup, logs: Logs, c: Commit, network: Address, channel: nat)
    requires WellFormed(logs) && CoveredBatch(s, logs, c) && OpenedBy(s, logs, network, channel, c.last)
    ensures OpenedHere(s.node, MinedIn(logs, c), network, channel) <==> !OpenedBy(s, logs, network, channel, c.block)
    ensures OpenedBy(s, logs, network, channel, c.block) ==> CreatedBy(s, logs, network, c.block)
  {
    hide WellFormed, CoveredBatch, Mined, CreatedBy;
    var e :| OnChain(logs, e) && Opens(e, s.node, network, channel) && s.start < e.block <= c.last;
    OpenedWhen(s, logs, e, network, channel, c.block, c.last);
    hide OpenedBy;
  }

  /** An event that concerns the node is found once if and only if the filter is not ahead on it. */
  lemma OnceExactly(s: Setup, logs: Logs, c: Commit, e: LogEvent)
    requires WellFormed(logs) && CoveredBatch(s, logs, c) && e in MinedIn(logs, c) && Concerns(s, logs, e)
    ensures FoundOnce(c.filter, s.node, MinedIn(logs, c), e) <==> !Ahead(s, logs, c, e)
  {
    hide Mined, CreatedHere, OpenedHere, KnownNetwork;
    MinedHas(logs, c.block + 1, c.last, e);
    if e.body.Opened? {
      CreatedBefore(s, logs, e, c.last);
      CreatedHereExactly(s, logs, c, e.body.network);
    } else if e.body.OfChannel? {
      OpenedBefore(s, logs, e, c.block, c.last);
      hide WellFormed;
      CreatedHereExactly(s, logs, c, e.body.network);
      OpenedHereExactly(s, logs, c, e.body.network, e.body.channel);
      NetworksKnown(s, logs, c.filter, c.block, c.last, e.body.network);
    }
  }

  /** The batch has no event like this one, or is not ahead on it. */
  ghost predicate Timely(s: Setup, logs: Logs, c: Commit, e: LogEvent)
  {
    Select(MinedIn(logs, c), Alike(e)) == [] || !Ahead(s, logs, c, e)
  }

  lemma PresentExactly(s: Setup, logs: Logs, c: Commit, e: LogEvent)
    requires WellFormed(logs) && CoveredBatch(s, logs, c) && !e.body.Revealed? && e in MinedIn(logs, c)
    ensures var got, all := Select(Handed(s, logs, c), Alike(e)), Select(MinedIn(logs, c), Alike(e));
      (!Concerns(s, logs, e) ==> got == [])
      && (Concerns(s, logs, e) ==> |got| >= |all| && (got == all <==> !Ahead(s, logs, c, e)))
  {
    hide Mined, WellFormed, Discover, Select, ByBlock, Relevant, Concerns, FoundOnce, Alike, Ahead;
    assert Truthy(c.filter);
    MinedByBlock(logs, c.block + 1, c.last);
    RelevantHere(s, logs, c.filter, c.block, c.last, e);
    hide Covers, Truthy;
    DiscoverOnceExactly(c.filter, s.node, MinedIn(logs, c), e);
    if Concerns(s, logs, e) {
      CopiesAtLeast(c.filter, s.node, MinedIn(logs, c), e);
      OnceExactly(s, logs, c, e);
    }
  }

  /** Events that are alike are treated alike. */
  lemma AlikeSame(s: Setup, logs: Logs, c: Commit, e: LogEvent, x: LogEvent)
    requires Like(e, x)
    ensures Select(Handed(s, logs, c), Alike(x)) == Select(Handed(s, logs, c), Alike(e))
    ensures Select(MinedIn(logs, c), Alike(x)) == Select(MinedIn(logs, c), Alike(e))
    ensures Concerns(s, logs, x) <==> Concerns(s, logs, e)
    ensures Ahead(s, logs, c, x) <==> Ahead(s, logs, c, e)
  {
    hide Mined, Discover, Select, Watches, OpenedEver, CreatedEver, CreatedBy, OpenedBy;
    assert forall y :: Alike(x)(y) == Alike(e)(y);
    SelectSame(MinedIn(logs, c), Alike(x), Alike(e));
    SelectSame(Handed(s, logs, c), Alike(x), Alike(e));
  }

  lemma CommitExactly(s: Setup, logs: Logs, c: Commit, e: LogEvent)
    requires WellFormed(logs) && CoveredBatch(s, logs, c) && !e.body.Revealed?
    ensures var got, all := Select(Handed(s, logs, c), Alike(e)), Select(MinedIn(logs, c), Alike(e));
      (!Concerns(s, logs, e) ==> got == [])
      && (Concerns(s, logs, e) ==> |got| >= |all| && (got == all <==> Timely(s, logs, c, e)))
  {
    hide Mined, WellFormed, Discover, Select, Concerns, Ahead, MinedIn, Handed;
    assert Truthy(c.filter);
    hide Covers, Truthy;
    var all := Select(MinedIn(logs, c), Alike(e));
    if all == [] {
      NothingHanded(s, logs, c, e);
    } else {
      var x := all[0];
      assert x in all;
      AlikeSame(s, logs, c, e, x);
      PresentExactly(s, logs, c, x);
    }
  }

  lemma NothingHanded(s: Setup, logs: Logs, c: Commit, e: LogEvent)
    requires Truthy(c.filter) && Select(MinedIn(logs, c), Alike(e)) == []
    ensures Select(Handed(s, logs, c), Alike(e)) == []
  {
    hide Mined, Discover, Truthy;
    forall x | x in Handed(s, logs, c) ensures !Alike(e)(x) {
      DiscoverFromLogs(c.filter, s.node, MinedIn(logs, c), x);
      assert Alike(e)(x) ==> x in Select(MinedIn(logs, c), Alike(e));
    }
    SelectNone(Handed(s, logs, c), Alike(e));
  }

  /** A relevant event is returned at least as often as it happened. */
  lemma CopiesAtLeast(f: Filter, node: Address, logs: seq<LogEvent>, e: LogEvent)
    requires Truthy(f) && ByBlock(logs) && e in logs && Relevant(f, node, logs, e)
    ensures |Select(Discover(f, node, logs), Alike(e))| >= |Select(logs, Alike(e))|
  {
    hide Discover, Returned, Relevant, Select, ByBlock, Truthy;
    CopiesReturned(f, node, logs, e);
    ReturnedRelevant(f, node, logs, e);
    var k, n := Returned(f, node, logs, e), |Select(logs, Alike(e))|;
    TimesAdd(1, k - 1, n);
  }

  /**
   The main theorem on a log. Of the events that concern the node it holds those of each kind exactly
   as they happened, if and only if no batch was ahead on some that it had; and it holds no others.
   */
  lemma {:induction false} HandedExactly(
    s: Setup, logs: Logs, block: nat, commits: seq<Commit>, last: nat, e: LogEvent)
    requires WellFormed(logs) && Chained(s, logs, block, commits, last) && !e.body.Revealed?
    ensures var got, all := Select(AllHanded(s, logs, commits), Alike(e)), Select(Mined(logs, block + 1, last), Alike(e));
      (!Concerns(s, logs, e) ==> got == [])
      && (Concerns(s, logs, e) ==>
            |got| >= |all| && (got == all <==> forall c :: c in commits ==> Timely(s, logs, c, e)))
    decreases commits
  {
    hide WellFormed, Concerns, Timely, Select, Handed, CoveredBatch, Alike;
    if commits == [] {
      assert Mined(logs, block + 1, last) == [];
      SelectNothing(Alike(e));
    } else {
      var c, rest := commits[0], commits[1..];
      ChainedForward(s, logs, c.last, rest, last);
      HandedExactly(s, logs, c.last, rest, last, e);
      CommitExactly(s, logs, c, e);
      assert block < c.last by { assert CoveredBatch(s, logs, c); BatchForward(s, logs, c); }
      MinedSplit(logs, block + 1, c.last, last);
      SelectConcat(Handed(s, logs, c), AllHanded(s, logs, rest), Alike(e));
      SelectConcat(MinedIn(logs, c), Mined(logs, c.last + 1, last), Alike(e));
      assert commits == [c] + rest;
      hide Mined, AllHanded, Chained;
      EqualParts(Select(Handed(s, logs, c), Alike(e)), Select(AllHanded(s, logs, rest), Alike(e)),
                 Select(MinedIn(logs, c), Alike(e)), Select(Mined(logs, c.last + 1, last), Alike(e)));
    }
  }

  lemma BatchForward(s: Setup, logs: Logs, c: Commit)
    requires CoveredBatch(s, logs, c)
    ensures s.start <= c.block < c.last
  {
  }

  lemma {:induction false} ChainedForward(s: Setup, logs: Logs, block: nat, commits: seq<Commit>, last: nat)
    requires Chained(s, logs, block, commits, last)
    ensures block <= last
    decreases commits
  {
    hide Covers;
    if commits != [] {
      ChainedForward(s, logs, commits[0].last, commits[1..], last);
    }
  }

  /** Of each kind of event, what concerns the node exactly as it happened by block `last`, and nothing else. */
  ghost predicate HoldsChain(s: Setup, logs: Logs, events: seq<LogEvent>, last: nat)
  {
    forall e: LogEvent :: !e.body.Revealed? ==>
      Select(events, Alike(e)) == if Concerns(s, logs, e) then Select(Mined(logs, s.start + 1, last), Alike(e)) else []
  }

  ghost predicate NeverAhead(s: Setup, logs: Logs, commits: seq<Commit>)
  {
    forall c, e: LogEvent :: c in commits && !e.body.Revealed? && Concerns(s, logs, e) ==> Timely(s, logs, c, e)
  }

  /** So for all events together. */
  lemma HoldsExactly(s: Setup, logs: Logs, commits: seq<Commit>, last: nat)
    requires WellFormed(logs) && Chained(s, logs, s.start, commits, last)
    ensures HoldsChain(s, logs, AllHanded(s, logs, commits), last) <==> NeverAhead(s, logs, commits)
  {
    hide WellFormed, Chained, AllHanded, Mined, Select, Concerns, Alike, Timely;
    forall e: LogEvent | !e.body.Revealed?
      ensures Select(AllHanded(s, logs, commits), Alike(e))
           == (if Concerns(s, logs, e) then Select(Mined(logs, s.start + 1, last), Alike(e)) else [])
         <==> (Concerns(s, logs, e) ==> forall c :: c in commits ==> Timely(s, logs, c, e))
    {
      HandedExactly(s, logs, s.start, commits, last, e);
    }
  }

  ghost predicate Punctual(s: Setup, logs: Logs, commits: seq<Commit>)
  {
    forall c :: c in commits ==> UpToDate(s, logs, c.filter, c.block)
  }

  /** Filters that are up to date are never ahead. */
  lemma PunctualNeverAhead(s: Setup, logs: Logs, commits: seq<Commit>)
    requires Punctual(s, logs, commits)
    ensures NeverAhead(s, logs, commits)
  {
    hide Mined, Select, Concerns, Alike, Watches, CreatedBy, OpenedBy;
  }

  /**
   Secrets on the chain: one is handed over exactly if some channel was followed before its batch. So
   a secret that is revealed in the batch of the first channel is missed.
   */
  lemma SecretHanded(s: Setup, logs: Logs, c: Commit, e: LogEvent)
    requires WellFormed(logs) && CoveredBatch(s, logs, c) && e in MinedIn(logs, c) && e.body.Revealed?
    ensures Select(Handed(s, logs, c), Alike(e))
         == if e.body.secretRegistry == s.secretRegistry && c.filter.channels != map[]
            then Select(MinedIn(logs, c), Alike(e)) else []
  {
    hide Mined, Discover, Select, ByBlock;
    assert Truthy(c.filter);
    MinedByBlock(logs, c.block + 1, c.last);
    hide WellFormed;
    DiscoverOnceExactly(c.filter, s.node, MinedIn(logs, c), e);
  }

  /** Parts that are each at least as long are together the same only if each is. */
  lemma EqualParts<T>(a: seq<T>, b: seq<T>, x: seq<T>, y: seq<T>)
    ensures |a| >= |x| && |b| >= |y| ==> (a + b == x + y <==> a == x && b == y)
  {
    if |a| >= |x| && |b| >= |y| && a + b == x + y {
      assert |a + b| == |x + y|;
      assert a == (a + b)[..|a|] && b == (a + b)[|a|..] && x == (x + y)[..|x|] && y == (x + y)[|x|..];
    }
  }

  lemma {:induction false} ChainedSnoc(s: Setup, logs: Logs, block: nat, commits: seq<Commit>, c: Commit)
    requires Chained(s, logs, block, commits, c.block) && CoveredBatch(s, logs, c)
    ensures Chained(s, logs, block, commits + [c], c.last)
    decreases commits
  {
    hide CoveredBatch;
    if commits == [] {
      assert commits + [c] == [c] && [c][1..] == [];
      assert Chained(s, logs, c.last, [], c.last);
    } else {
      assert (commits + [c])[0] == commits[0] && (commits + [c])[1..] == commits[1..] + [c];
      ChainedSnoc(s, logs, commits[0].last, commits[1..], c);
    }
  }

  lemma {:induction false} AllHandedSnoc(s: Setup, logs: Logs, commits: seq<Commit>, c: Commit)
    ensures AllHanded(s, logs, commits + [c]) == AllHanded(s, logs, commits) + Handed(s, logs, c)
    decreases commits
  {
    hide Handed;
    if commits == [] {
      assert commits + [c] == [c] && [c][1..] == [];
    } else {
      assert (commits + [c])[0] == commits[0] && (commits + [c])[1..] == commits[1..] + [c];
      AllHandedSnoc(s, logs, commits[1..], c);
    }
  }

  lemma CommitHas(s: Setup, logs: Logs, c: Commit, e: LogEvent)
    requires WellFormed(logs) && CoveredBatch(s, logs, c) && !e.body.Revealed?
    ensures e in Handed(s, logs, c) <==> e in MinedIn(logs, c) && Concerns(s, logs, e)
  {
    hide WellFormed, Mined, Discover, Round, Second, Third, Relevant, Concerns, Asked;
    var f, here := c.filter, MinedIn(logs, c);
    assert Truthy(f);
    if e in here {
      RelevantHere(s, logs, f, c.block, c.last, e);
      hide Covers, Truthy;
      ReturnedRelevant(f, s.node, here, e);
    }
    DiscoverThree(f, s.node, here);
    RoundHas(f, s.node, here, e);
    RoundHas(Second(f, s.node, here), s.node, here, e);
    RoundHas(Third(f, s.node, here), s.node, here, e);
  }

  lemma ReturnedRelevant(f: Filter, node: Address, logs: seq<LogEvent>, e: LogEvent)
    requires e in logs
    ensures Returned(f, node, logs, e) > 0 <==> Relevant(f, node, logs, e)
  {
    if e.body.Opened? {
      ReturnedOpened(f, node, logs, e);
    } else if e.body.OfChannel? {
      ReturnedChannel(f, node, logs, e);
    } else {
      ReturnedOther(f, node, logs, e);
    }
  }

  /** The log has an event if and only if it happened by then and concerns the node. */
  lemma {:induction false} HandedHas(s: Setup, logs: Logs, block: nat, commits: seq<Commit>, last: nat, e: LogEvent)
    requires WellFormed(logs) && Chained(s, logs, block, commits, last) && !e.body.Revealed?
    ensures e in AllHanded(s, logs, commits) <==> e in Mined(logs, block + 1, last) && Concerns(s, logs, e)
    decreases commits
  {
    hide WellFormed, CoveredBatch, Handed, Concerns;
    if commits != [] {
      var c, rest := commits[0], commits[1..];
      CommitHas(s, logs, c, e);
      HandedHas(s, logs, c.last, rest, last, e);
      ChainedForward(s, logs, c.last, rest, last);
      BatchForward(s, logs, c);
      MinedSplit(logs, block + 1, c.last, last);
      hide Mined, Chained;
    }
  }

  lemma {:induction false} NotHanded(s: Setup, logs: Logs, block: nat, commits: seq<Commit>, last: nat, e: LogEvent)
    requires WellFormed(logs) && Chained(s, logs, block, commits, last) && e !in Mined(logs, block + 1, last)
    requires !e.body.OfChannel?
    ensures Select(AllHanded(s, logs, commits), Alike(e)) == []
    decreases commits
  {
    hide WellFormed, Select, Discover;
    if commits == [] {
      SelectNothing(Alike(e));
    } else {
      var c, rest := commits[0], commits[1..];
      assert Truthy(c.filter);
      hide Covers, Truthy;
      ChainedForward(s, logs, c.last, rest, last);
      MinedSplit(logs, block + 1, c.last, last);
      SelectNone(MinedIn(logs, c), Alike(e));
      NothingHanded(s, logs, c, e);
      NotHanded(s, logs, c.last, rest, last, e);
      SelectConcat(Handed(s, logs, c), AllHanded(s, logs, rest), Alike(e));
    }
  }

  /** The same on the whole log: the batch that has the secret decides. */
  lemma {:induction false} SecretsExactly(
    s: Setup, logs: Logs, block: nat, commits: seq<Commit>, last: nat, i: nat, e: LogEvent)
    requires WellFormed(logs) && Chained(s, logs, block, commits, last)
    requires i < |commits| && e in MinedIn(logs, commits[i]) && e.body == Revealed(s.secretRegistry)
    ensures Select(AllHanded(s, logs, commits), Alike(e))
         == if commits[i].filter.channels != map[] then Select(MinedIn(logs, commits[i]), Alike(e)) else []
    decreases commits
  {
    hide WellFormed, Select, Mined, Handed, CoveredBatch;
    var c, rest := commits[0], commits[1..];
    SelectConcat(Handed(s, logs, c), AllHanded(s, logs, rest), Alike(e));
    if i == 0 {
      SecretHanded(s, logs, c, e);
      MinedHas(logs, c.block + 1, c.last, e);
      MinedHas(logs, c.last + 1, last, e);
      NotHanded(s, logs, c.last, rest, last, e);
    } else {
      SecretsExactly(s, logs, c.last, rest, last, i - 1, e);
      CommitsLater(s, logs, c.last, rest, last, i - 1);
      MinedHas(logs, commits[i].block + 1, commits[i].last, e);
      MinedHas(logs, c.block + 1, c.last, e);
      SelectNone(MinedIn(logs, c), Alike(e));
      CoveredIsTruthy(s, logs, c);
      NothingHanded(s, logs, c, e);
    }
  }

  lemma CoveredIsTruthy(s: Setup, logs: Logs, c: Commit)
    requires CoveredBatch(s, logs, c)
    ensures Truthy(c.filter)
  {
  }

  lemma {:induction false} CommitsLater(s: Setup, logs: Logs, block: nat, commits: seq<Commit>, last: nat, i: nat)
    requires Chained(s, logs, block, commits, last) && i < |commits|
    ensures block <= commits[i].block
    decreases commits
  {
    hide Covers;
    if i > 0 {
      CommitsLater(s, logs, commits[0].last, commits[1..], last, i - 1);
    }
  }

  /** The filter that a timeout in the second round leaves, in the commit of the next attempt. */
  function Retried(s: Setup, logs: Logs, f: Filter, block: nat, tried: nat, last: nat): Commit
  {
    Committed(Rounds(f, s.node, Mined(logs, block + 1, tried), 1).tracked, block, last)
  }

  /** It is ahead on the openings in a network that the first attempt has found. */
  lemma RetriedAhead(
    s: Setup, logs: Logs, f: Filter, block: nat, tried: nat, last: nat, created: LogEvent, opening: LogEvent)
    requires WellFormed(logs) && Covers(s, logs, f, block) && s.start <= block < created.block <= tried && block < last
    requires opening.body.Opened? && created.body == Created(s.registry, opening.body.network) && OnChain(logs, created)
    requires opening.body.first == s.node || opening.body.second == s.node
    ensures var c := Retried(s, logs, f, block, tried, last);
      CoveredBatch(s, logs, c) && Ahead(s, logs, c, opening) && Concerns(s, logs, opening)
  {
    hide WellFormed, Mined, Rounds, Covers, Truthy, Watches;
    CoversRegistry(s, logs, f, block);
    RoundsCover(s, logs, f, block, tried, 1);
    MinedHas(logs, block + 1, tried, created);
    TimeoutTracks(f, s.node, Mined(logs, block + 1, tried), created);
    assert CreatedBy(s, logs, opening.body.network, created.block);
    NotYetCreated(s, logs, created, opening.body.network, block);
    hide CreatedBy;
  }

  lemma CoversRegistry(s: Setup, logs: Logs, f: Filter, block: nat)
    requires Covers(s, logs, f, block)
    ensures Truthy(f) && f.registries == {s.registry}
  {
  }

  /**
   How a log comes to hold events twice: a timeout in the second round of one attempt leaves the new
   network in the filter, and the next attempt, whatever its range, is committed with it.
   */
  lemma TimeoutThenTwice(
    s: Setup, logs: Logs, commits: seq<Commit>, f: Filter, block: nat, tried: nat, last: nat,
    created: LogEvent, opening: LogEvent)
    requires WellFormed(logs) && Chained(s, logs, s.start, commits, block) && Covers(s, logs, f, block)
    requires block < created.block <= tried && block < opening.block <= last
    requires opening.body.Opened? && created.body == Created(s.registry, opening.body.network)
    requires opening.body.first == s.node || opening.body.second == s.node
    requires OnChain(logs, created) && OnChain(logs, opening)
    ensures var commits' := commits + [Retried(s, logs, f, block, tried, last)];
      Chained(s, logs, s.start, commits', last) && !HoldsChain(s, logs, AllHanded(s, logs, commits'), last)
  {
    hide WellFormed, Mined, HoldsChain, AllHanded, Chained, Covers, CoveredBatch, Ahead, Concerns, Select, Rounds;
    var c := Retried(s, logs, f, block, tried, last);
    assert c.block == block && c.last == last;
    ChainedForward(s, logs, s.start, commits, block);
    RetriedAhead(s, logs, f, block, tried, last, created, opening);
    ChainedSnoc(s, logs, s.start, commits, c);
    HoldsExactly(s, logs, commits + [c], last);
    MinedHas(logs, block + 1, last, opening);
    assert opening in Select(MinedIn(logs, c), Alike(opening));
    assert c in commits + [c] && !Timely(s, logs, c, opening);
  }

  lemma NotYetCreated(s: Setup, logs: Logs, created: LogEvent, network: Address, block: nat)
    requires WellFormed(logs) && OnChain(logs, created) && created.body == Created(s.registry, network) && block < created.block
    ensures !CreatedBy(s, logs, network, block)
  {
    hide WellFormed;
    if CreatedBy(s, logs, network, block) {
      var e :| OnChain(logs, e) && e.body == Created(s.registry, network) && s.start < e.block <= block;
      OnlyOne(logs, e, created);
    }
  }
}
