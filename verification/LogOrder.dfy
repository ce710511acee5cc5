/**
 The order of the events in the log. It is not always that of the blocks, since a batch is returned
 round by round; but nothing comes before what announces it, so no event finds its contract unknown.
 */
module LogOrder {
  import opened LockCodec
  import opened StableSort
  import opened EventOrder
  import opened FilterDiscovery
  import opened DiscoveryOrder
  import opened ConfirmedChain

  // ---------- block order ----------

  /** The event is found only through a contract that the first round announces. */
  ghost predicate InSecondRound(f: Filter, node: Address, logs: seq<LogEvent>, e: LogEvent)
  {
    match e.body
    case Opened(network, _, first, second) => CreatedHere(f, logs, network) && (first == node || second == node)
    case OfChannel(network, channel, _) => network in f.networks && OpenedHere(node, logs, network, channel)
    case _ => false
  }

  /** Or through a channel that the second round announces. */
  ghost predicate InThirdRound(f: Filter, node: Address, logs: seq<LogEvent>, e: LogEvent)
  {
    e.body.OfChannel? && CreatedHere(f, logs, e.body.network) && OpenedHere(node, logs, e.body.network, e.body.channel)
  }

  /** The filters of the later rounds ask for openings and channel events only. */
  lemma ChildAsks(events: seq<LogEvent>, node: Address, e: LogEvent)
    ensures Asked(Child(events), node, e) > 0 <==>
      (e.body.Opened? && e.body.network in Child(events).networks && (e.body.first == node || e.body.second == node))
      || (e.body.OfChannel? && Watches(Child(events), e.body.network, e.body.channel))
  {
    hide Watches, OpenedChannels, CreatedNetworks;
  }

  lemma RoundsHave(f: Filter, node: Address, logs: seq<LogEvent>, e: LogEvent)
    ensures e in Round(Second(f, node, logs), node, logs) <==> e in logs && InSecondRound(f, node, logs, e)
    ensures e in Round(Third(f, node, logs), node, logs) <==> e in logs && InThirdRound(f, node, logs, e)
  {
    hide Round, Child, Watches, Asked;
    var f1, f2 := Second(f, node, logs), Third(f, node, logs);
    RoundHas(f1, node, logs, e);
    RoundHas(f2, node, logs, e);
    ChildAsks(Round(f, node, logs), node, e);
    ChildAsks(Round(f1, node, logs), node, e);
    if e.body.Opened? {
      SecondNetworks(f, node, logs, e.body.network);
    } else if e.body.OfChannel? {
      SecondNetworks(f, node, logs, e.body.network);
      SecondChannels(f, node, logs, e.body.network, e.body.channel);
      SecondChannels(f1, node, logs, e.body.network, e.body.channel);
    }
  }

  lemma OrderedConcat(a: seq<LogEvent>, b: seq<LogEvent>)
    requires ByBlock(a) && ByBlock(b)
    ensures ByBlock(a + b) <==> forall x, y :: x in a && y in b ==> x.block <= y.block
  {
    var s := a + b;
    if ByBlock(s) {
      forall x, y | x in a && y in b ensures x.block <= y.block {
        var i :| 0 <= i < |a| && a[i] == x;
        var j :| 0 <= j < |b| && b[j] == y;
        assert s[i] == x && s[|a| + j] == y;
      }
    } else {
      var i, j :| 0 <= i < j < |s| && !NotLater(s[i], s[j]);
      assert i < |a| <= j && a[i] in a && b[j - |a|] in b;
    }
  }

  lemma RoundByBlock(f: Filter, node: Address, logs: seq<LogEvent>)
    ensures ByBlock(Round(f, node, logs))
  {
    SortOrdered(NotLater, Results(Queries(f), node, logs));
  }

  /** No event of a later round lies in a block before one of an earlier round. */
  ghost predicate RoundsInOrder(f: Filter, node: Address, logs: seq<LogEvent>)
  {
    forall a, b :: a in logs && b in logs && b.block < a.block ==>
      !(Asked(f, node, a) > 0 && (InSecondRound(f, node, logs, b) || InThirdRound(f, node, logs, b)))
      && !(InSecondRound(f, node, logs, a) && InThirdRound(f, node, logs, b))
  }

  /** Exactly when a batch is returned in the order of the blocks. */
  lemma InBlockOrderExactly(f: Filter, node: Address, logs: seq<LogEvent>)
    requires Truthy(f)
    ensures ByBlock(Discover(f, node, logs)) <==> RoundsInOrder(f, node, logs)
  {
    var f1, f2 := Second(f, node, logs), Third(f, node, logs);
    var r0, r1, r2 := Round(f, node, logs), Round(f1, node, logs), Round(f2, node, logs);
    hide Round, Discover, Second, Third, InSecondRound, InThirdRound, Asked;
    DiscoverThree(f, node, logs);
    RoundByBlock(f, node, logs);
    RoundByBlock(f1, node, logs);
    RoundByBlock(f2, node, logs);
    forall e
      ensures e in r0 <==> e in logs && Asked(f, node, e) > 0
      ensures e in r1 <==> e in logs && InSecondRound(f, node, logs, e)
      ensures e in r2 <==> e in logs && InThirdRound(f, node, logs, e)
    {
      RoundHas(f, node, logs, e);
      RoundsHave(f, node, logs, e);
    }
    OrderedConcat(r1, r2);
    assert r0 + r1 + r2 == r0 + (r1 + r2);
    if ByBlock(r1 + r2) {
      OrderedConcat(r0, r1 + r2);
    } else {
      TailOrdered(r0, r1 + r2);
    }
    hide ByBlock;
  }

  lemma TailOrdered(a: seq<LogEvent>, b: seq<LogEvent>)
    ensures ByBlock(a + b) ==> ByBlock(b)
  {
    if ByBlock(a + b) {
      forall i, j | 0 <= i < j < |b| ensures NotLater(b[i], b[j]) {
        assert b[i] == (a + b)[|a| + i] && b[j] == (a + b)[|a| + j];
      }
    }
  }

  lemma ThreeByBlock(a: LogEvent, b: LogEvent, c: LogEvent)
    requires a.block <= b.block <= c.block
    ensures ByBlock([a, b, c])
  {
  }

  /**
   Block order fails without any timeout. A network is created and a channel opened in it, and then
   something happens in a channel that was followed all along: that comes first.
   */
  lemma BlockOrderFails(f: Filter, node: Address, created: LogEvent, opening: LogEvent, e: LogEvent)
    requires Truthy(f) && created.body.Created? && opening.body.Opened? && e.body.OfChannel?
    requires created.block <= opening.block < e.block
    requires created.body.registry in f.registries && created.body.network !in f.networks
    requires opening.body.network == created.body.network && opening.body.first == node != opening.body.second
    requires Watches(f, e.body.network, e.body.channel) && !Watches(f, opening.body.network, opening.body.channel)
    ensures var logs := [created, opening, e];
      Predates(f, logs) && (forall x :: x in logs ==> Relevant(f, node, logs, x)) && !ByBlock(Discover(f, node, logs))
  {
    hide Discover, Watches, Truthy, ByBlock;
    var logs := [created, opening, e];
    assert created in logs && opening in logs && e in logs;
    assert forall x :: x in logs ==> x == created || x == opening || x == e;
    InBlockOrderExactly(f, node, logs);
    ThreeByBlock(created, opening, e);
    assert CreatedHere(f, logs, created.body.network) && KnownNetwork(f, logs, created.body.network);
    assert InSecondRound(f, node, logs, opening) && Asked(f, node, e) > 0;
  }

  // ---------- announcements ----------

  lemma {:induction false} InsertPrecedes(h: LogEvent, t: seq<LogEvent>, a: LogEvent, b: LogEvent)
    requires a != b && NotLater(a, b) && Precedes(t, a, b) && (h == b ==> a !in t)
    ensures Precedes(Insert(NotLater, h, t), a, b)
    decreases t
  {
    if t == [] || NotLater(h, t[0]) {
      PrecedesCons(h, t, a, b);
    } else {
      assert t == [t[0]] + t[1..];
      PrecedesCons(t[0], t[1..], a, b);
      InsertPrecedes(h, t[1..], a, b);
      PrecedesCons(t[0], Insert(NotLater, h, t[1..]), a, b);
    }
  }

  lemma PrecedesCons(h: LogEvent, t: seq<LogEvent>, a: LogEvent, b: LogEvent)
    requires a != b
    ensures Precedes([h] + t, a, b) <==> Precedes(t, a, b) && (h == b ==> a !in t)
  {
    var s := [h] + t;
    assert forall i :: 0 <= i < |t| ==> s[i + 1] == t[i];
    if Precedes(s, a, b) {
      forall i, j | 0 <= i < |t| && 0 <= j < |t| && t[i] == a && t[j] == b ensures i < j {
        assert s[i + 1] == a && s[j + 1] == b;
      }
      assert s[0] == h;
    }
  }

  /** The stable sort keeps the order of two events whose blocks agree with it. */
  lemma {:induction false} SortPrecedes(s: seq<LogEvent>, a: LogEvent, b: LogEvent)
    requires a != b && NotLater(a, b) && Precedes(s, a, b)
    ensures Precedes(Sort(NotLater, s), a, b)
  {
    if s != [] {
      assert s == [s[0]] + s[1..];
      PrecedesCons(s[0], s[1..], a, b);
      SortPrecedes(s[1..], a, b);
      InsertPrecedes(s[0], Sort(NotLater, s[1..]), a, b);
    }
  }

  lemma {:induction false} ResultsConcat(p: seq<Query>, q: seq<Query>, node: Address, logs: seq<LogEvent>)
    ensures Results(p + q, node, logs) == Results(p, node, logs) + Results(q, node, logs)
  {
    hide Select, Matches;
    if p == [] {
      assert p + q == q;
    } else {
      assert (p + q)[0] == p[0] && (p + q)[1..] == p[1..] + q;
      ResultsConcat(p[1..], q, node, logs);
    }
  }

  lemma NoResult(queries: seq<Query>, node: Address, logs: seq<LogEvent>, e: LogEvent)
    requires forall q :: q in queries ==> !Matches(q, node, e)
    ensures e !in Results(queries, node, logs)
  {
    ResultsMatch(queries, node, logs, e);
  }

  lemma SplitPrecedes(p: seq<Query>, q: seq<Query>, node: Address, logs: seq<LogEvent>, a: LogEvent, b: LogEvent)
    requires forall x :: x in p ==> !Matches(x, node, b)
    requires forall x :: x in q ==> !Matches(x, node, a)
    ensures Precedes(Results(p + q, node, logs), a, b)
  {
    hide Results, Matches;
    ResultsConcat(p, q, node, logs);
    NoResult(p, node, logs, b);
    NoResult(q, node, logs, a);
    PrecedesSplit(Results(p, node, logs), Results(q, node, logs), a, b);
  }

  /** The queries of a filter up to those for openings, and the others. */
  function NetworkQueries(f: Filter): seq<Query>
  {
    (if f.registries != {} then [Networks(f.registries)] else [])
    + (if f.secretRegistry.Some? && !f.ignoreSecrets then [Secrets(f.secretRegistry.value)] else [])
  }

  function OpeningQueries(f: Filter): seq<Query>
  {
    if f.networks != {} then [OpenedByFirst(f.networks), OpenedBySecond(f.networks)] else []
  }

  function OtherQueries(f: Filter): seq<Query>
  {
    ChannelQueries(f.channels) + if f.serviceRegistry.Some? then [Services(f.serviceRegistry.value)] else []
  }

  lemma QueriesParts(f: Filter)
    ensures Queries(f) == NetworkQueries(f) + (OpeningQueries(f) + OtherQueries(f))
    ensures Queries(f) == (NetworkQueries(f) + OpeningQueries(f)) + OtherQueries(f)
    ensures forall q :: q in NetworkQueries(f) ==> q.Networks? || q.Secrets?
    ensures forall q :: q in OpeningQueries(f) ==> q.OpenedByFirst? || q.OpenedBySecond?
    ensures forall q :: q in OtherQueries(f) ==> q.Channels? || q.Services?
  {
    ChannelQueriesOnly(f.channels);
    hide ChannelQueries;
  }

  /** The queries for networks come before those for openings, and these before those for channels. */
  lemma RoundPrecedes(f: Filter, node: Address, logs: seq<LogEvent>, a: LogEvent, b: LogEvent)
    requires a.block <= b.block
    requires (a.body.Created? && b.body.Opened?) || (a.body.Opened? && b.body.OfChannel?)
    ensures Precedes(Round(f, node, logs), a, b)
  {
    hide Queries, NetworkQueries, OpeningQueries, OtherQueries, Results, Precedes;
    QueriesParts(f);
    if a.body.Created? {
      SplitPrecedes(NetworkQueries(f), OpeningQueries(f) + OtherQueries(f), node, logs, a, b);
    } else {
      SplitPrecedes(NetworkQueries(f) + OpeningQueries(f), OtherQueries(f), node, logs, a, b);
    }
    SortPrecedes(Results(Queries(f), node, logs), a, b);
  }

  /** `a` makes the contract of `e` known. */
  predicate Announces(s: Setup, a: LogEvent, e: LogEvent)
  {
    match e.body
    case Opened(network, _, _, _) => a.body == Created(s.registry, network)
    case OfChannel(network, channel, _) => Opens(a, s.node, network, channel)
    case _ => false
  }

  ghost predicate Announced(s: Setup, before: seq<LogEvent>, e: LogEvent)
  {
    e.body.Opened? || e.body.OfChannel? ==> exists a :: a in before && Announces(s, a, e)
  }

  lemma PrecedingIndex(r: seq<LogEvent>, a: LogEvent, j: nat)
    requires j < |r| && a in r && Precedes(r, a, r[j])
    ensures a in r[..j]
  {
    var i :| 0 <= i < |r| && r[i] == a;
    assert r[..j][i] == a;
  }

  /** Whoever asks for an event also asks for what announces it. */
  lemma AnnouncerAsked(s: Setup, logs: Logs, f: Filter, block: nat, a: LogEvent, e: LogEvent)
    requires Covers(s, logs, f, block) && Asked(f, s.node, e) > 0 && Announces(s, a, e)
    ensures Asked(f, s.node, a) > 0
  {
    hide CreatedBy, OpenedBy, CreatedEver, OpenedEver, FinalBy;
  }

  lemma AnnouncerFirst(s: Setup, logs: Logs, c: Commit, a: LogEvent, j: nat)
    requires WellFormed(logs) && CoveredBatch(s, logs, c) && j < |Round(c.filter, s.node, MinedIn(logs, c))|
    requires Announces(s, a, Round(c.filter, s.node, MinedIn(logs, c))[j]) && OnChain(logs, a) && c.block < a.block
    ensures a in Round(c.filter, s.node, MinedIn(logs, c))[..j]
  {
    hide WellFormed, Mined, Round, Precedes, Covers, Asked;
    var f, here := c.filter, MinedIn(logs, c);
    var e := Round(f, s.node, here)[j];
    RoundHas(f, s.node, here, e);
    RoundHas(f, s.node, here, a);
    AnnouncerAsked(s, logs, f, c.block, a, e);
    MinedHas(logs, c.block + 1, c.last, e);
    InOrder(logs, a, e);
    MinedHas(logs, c.block + 1, c.last, a);
    RoundPrecedes(f, s.node, here, a, e);
    PrecedingIndex(Round(f, s.node, here), a, j);
  }

  /** The event is announced, by `block` or in the blocks behind it up to `last`. */
  lemma AnnouncerOf(s: Setup, logs: Logs, e: LogEvent, block: nat, last: nat) returns (a: LogEvent)
    requires WellFormed(logs) && OnChain(logs, e) && block < e.block <= last && Concerns(s, logs, e)
    requires e.body.Opened? || e.body.OfChannel?
    ensures OnChain(logs, a) && Announces(s, a, e)
    ensures a.block <= block ==>
      if e.body.Opened? then CreatedBy(s, logs, e.body.network, block)
      else OpenedBy(s, logs, e.body.network, e.body.channel, block)
  {
    hide WellFormed;
    if e.body.Opened? {
      CreatedBefore(s, logs, e, last);
      a :| OnChain(logs, a) && a.body == Created(s.registry, e.body.network) && s.start < a.block <= last;
    } else {
      OpenedBefore(s, logs, e, block, last);
      a :| OnChain(logs, a) && Opens(a, s.node, e.body.network, e.body.channel) && s.start < a.block <= last;
      CreatedLater(s, logs, e.body.network, last, last);
      hide CreatedBy, CreatedEver;
      OpenedWhen(s, logs, a, e.body.network, e.body.channel, block, last);
    }
  }

  /** In the first round: it is sorted, and the queries that announce come before. */
  lemma FirstRoundAnnounced(s: Setup, logs: Logs, c: Commit, e: LogEvent, j: nat)
    requires WellFormed(logs) && CoveredBatch(s, logs, c) && j < |Round(c.filter, s.node, MinedIn(logs, c))|
    requires e == Round(c.filter, s.node, MinedIn(logs, c))[j] && Concerns(s, logs, e)
    requires e.body.Opened? || e.body.OfChannel?
    ensures Announced(s, Round(c.filter, s.node, MinedIn(logs, c))[..j], e) || KnownBefore(s, logs, e, c.block)
  {
    hide WellFormed, Mined, Round, Covers, Concerns, Announces;
    RoundHas(c.filter, s.node, MinedIn(logs, c), e);
    MinedHas(logs, c.block + 1, c.last, e);
    var a := AnnouncerOf(s, logs, e, c.block, c.last);
    hide CreatedBy, OpenedBy;
    if c.block < a.block { AnnouncerFirst(s, logs, c, a, j); }
  }

  /** The network of the opening, or the channel of the event, is known by then. */
  ghost predicate KnownBefore(s: Setup, logs: Logs, e: LogEvent, block: nat)
  {
    || (e.body.Opened? && CreatedBy(s, logs, e.body.network, block))
    || (e.body.OfChannel? && OpenedBy(s, logs, e.body.network, e.body.channel, block))
  }

  /** In a later round: the round before has found what announces it. */
  lemma LaterRoundAnnounced(s: Setup, logs: Logs, c: Commit, e: LogEvent, third: bool) returns (a: LogEvent)
    requires CoveredBatch(s, logs, c) && (e.body.Opened? || e.body.OfChannel?)
    requires var f, here := c.filter, MinedIn(logs, c);
      e in Round(if third then Third(f, s.node, here) else Second(f, s.node, here), s.node, here)
    ensures Announces(s, a, e)
    ensures var f, here := c.filter, MinedIn(logs, c);
      a in Round(if third then Second(f, s.node, here) else f, s.node, here)
  {
    var f, here := c.filter, MinedIn(logs, c);
    RoundsHave(f, s.node, here, e);
    hide Mined, Round, Second, Third;
    if e.body.Opened? {
      a :| a in here && a.body.Created? && a.body.network == e.body.network && a.body.registry in f.registries;
    } else {
      a :| a in here && a.body.Opened? && a.body.network == e.body.network && a.body.channel == e.body.channel
        && (a.body.first == s.node || a.body.second == s.node);
    }
    RoundHas(f, s.node, here, a);
    RoundsHave(f, s.node, here, a);
  }

  /** An event of a batch is announced in front of it, in the batch or before it. */
  lemma BatchAnnounced(s: Setup, logs: Logs, c: Commit, j: nat)
    requires WellFormed(logs) && CoveredBatch(s, logs, c) && j < |Handed(s, logs, c)|
    ensures var e := Handed(s, logs, c)[j];
      Announced(s, Handed(s, logs, c)[..j], e) || KnownBefore(s, logs, e, c.block)
  {
    hide WellFormed, Round, Discover, Second, Third, Mined, Truthy, KnownBefore, Announces, CoveredBatch, Concerns;
    var f, here := c.filter, MinedIn(logs, c);
    var f1, f2 := Second(f, s.node, here), Third(f, s.node, here);
    var r0, r1, r2 := Round(f, s.node, here), Round(f1, s.node, here), Round(f2, s.node, here);
    var e := Handed(s, logs, c)[j];
    CoveredIsTruthy(s, logs, c);
    DiscoverThree(f, s.node, here);
    assert Handed(s, logs, c) == r0 + r1 + r2;
    if e.body.Opened? || e.body.OfChannel? {
      CommitHas(s, logs, c, e);
      hide Handed;
      if j < |r0| {
        FirstRoundAnnounced(s, logs, c, e, j);
        assert r0[..j] == (r0 + r1 + r2)[..j];
      } else {
        var a := LaterRoundAnnounced(s, logs, c, e, j >= |r0| + |r1|);
        assert (r0 + r1)[..|r0|] == r0;
        assert a in if j < |r0| + |r1| then r0 else r0 + r1;
        assert (r0 + r1 + r2)[..j] == if j < |r0| + |r1| then r0 + r1[..j - |r0|] else r0 + r1 + r2[..j - |r0| - |r1|];
      }
    }
  }

  /** Every network created by then, and every channel opened, has been announced by the log. */
  lemma LogAnnounces(s: Setup, logs: Logs, commits: seq<Commit>, last: nat, e: LogEvent)
    requires WellFormed(logs) && Chained(s, logs, s.start, commits, last)
    requires KnownBefore(s, logs, e, last)
    ensures Announced(s, AllHanded(s, logs, commits), e)
  {
    hide WellFormed, Chained, AllHanded, Mined;
    if e.body.Opened? {
      var a :| OnChain(logs, a) && a.body == Created(s.registry, e.body.network) && s.start < a.block <= last;
      MinedHas(logs, s.start + 1, last, a);
      HandedHas(s, logs, s.start, commits, last, a);
    } else {
      var a :| OnChain(logs, a) && Opens(a, s.node, e.body.network, e.body.channel) && s.start < a.block <= last;
      CreatedLater(s, logs, e.body.network, last, last);
      MinedHas(logs, s.start + 1, last, a);
      HandedHas(s, logs, s.start, commits, last, a);
    }
  }

  lemma {:induction false} ChainedPrefix(s: Setup, logs: Logs, block: nat, commits: seq<Commit>, last: nat)
    requires Chained(s, logs, block, commits, last) && commits != []
    ensures var c := commits[|commits| - 1];
      Chained(s, logs, block, commits[..|commits| - 1], c.block) && CoveredBatch(s, logs, c) && c.last == last
    decreases commits
  {
    hide CoveredBatch;
    if |commits| > 1 {
      ChainedPrefix(s, logs, commits[0].last, commits[1..], last);
      assert commits[..|commits| - 1][1..] == commits[1..][..|commits| - 2];
    } else {
      assert commits[..0] == [] && commits[1..] == [];
    }
  }

  /**
   In every log, whatever failed and however often the node has restarted: an opening comes after the
   creation of its network, and every event of a channel after its opening. So the assertions that a
   network is known when one of its channels opens never fail.
   */
  lemma {:induction false} AnnouncedFirst(s: Setup, logs: Logs, commits: seq<Commit>, last: nat, j: nat)
    requires WellFormed(logs) && Chained(s, logs, s.start, commits, last) && j < |AllHanded(s, logs, commits)|
    ensures Announced(s, AllHanded(s, logs, commits)[..j], AllHanded(s, logs, commits)[j])
    decreases |commits|
  {
    hide WellFormed, Handed, CoveredBatch, Announces;
    var all := AllHanded(s, logs, commits);
    var n := |commits| - 1;
    var before, c := commits[..n], commits[n];
    ChainedPrefix(s, logs, s.start, commits, last);
    assert commits == before + [c];
    AllHandedSnoc(s, logs, before, c);
    hide Chained;
    var done := AllHanded(s, logs, before);
    hide AllHanded;
    if j < |done| {
      AnnouncedFirst(s, logs, before, c.block, j);
      assert all[..j] == done[..j];
    } else {
      var i := j - |done|;
      var here := Handed(s, logs, c);
      assert all[..j] == done + here[..i];
      BatchAnnounced(s, logs, c, i);
      if !Announced(s, here[..i], here[i]) { LogAnnounces(s, logs, before, c.block, here[i]); }
    }
  }
}
