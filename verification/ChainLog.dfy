/**
 Synchronisation on the write-ahead log. Each batch of blocks is one transaction with the events that
 the filters return for it and the `Block` state change. The state that the log defines says which
 contracts are known, and a restart builds its filters from it.
 */
module ChainLog {
  import opened LockCodec
  import opened EventOrder
  import opened FilterDiscovery
  import opened StateLog
  import opened LogRuns
  import opened WriteAheadLog
  import opened ConfirmedChain
  import opened LogOrder
  import Sync = BlockSync

  // ---------- the state ----------

  /** What a batch dispatches: the state changes of the events, and the number of the last block. */
  datatype Change = Seen(event: LogEvent) | Block(number: nat)

  /** The part of the chain state that says which contracts there are. */
  datatype Known = Known(
    node: Address, block: nat, registries: set<Address>, networks: set<Address>, channels: set<(Address, nat)>)

  /** `_make_initial_state`. */
  function Initial(s: Setup): Known { Known(s.node, s.start, {s.registry}, {}, {}) }

  function Learn(k: Known, e: LogEvent): Known
  {
    match e.body
    case Created(registry, network) =>
      k.(registries := k.registries + {registry}, networks := k.networks + {network})
    case Opened(network, channel, first, second) =>
      if first == k.node || second == k.node then k.(channels := k.channels + {(network, channel)}) else k
    case OfChannel(network, channel, final) =>
      if final then k.(channels := k.channels - {(network, channel)}) else k
    case _ => k
  }

  /** The transition, which works in place. */
  function Follow(k: Known, c: Change): Iteration<Known, ()>
  {
    Iteration(if c.Seen? then Learn(k, c.event) else k.(block := c.number), [], true, k)
  }

  lemma FollowIdempotent()
    ensures Idempotent(Follow)
  {
    forall k, c ensures Follow(Follow(k, c).state, c).state == Follow(k, c).state {
      if c.Seen? && c.event.body.OfChannel? {
        var p := (c.event.body.network, c.event.body.channel);
        assert (k.channels - {p}) - {p} == k.channels - {p};
      }
    }
  }

  /** `smart_contract_filters_from_node_state`. */
  function Rebuilt(s: Setup, k: Known): Filter
  {
    var homes := set p | p in k.channels && p.0 in k.networks :: p.0;
    var channels := map n | n in homes :: set p | p in k.channels && p.0 == n :: p.1;
    assert forall n :: n in homes ==> exists p :: p in k.channels && p.0 == n;
    assert forall n, p :: n in homes && p in k.channels && p.0 == n ==> p.1 in channels[n];
    Filter(k.registries, k.networks, channels, Some(s.secretRegistry), channels == map[], s.serviceRegistry)
  }

  // ---------- the log ----------

  function AllSeen(events: seq<LogEvent>): (r: seq<Change>)
    ensures |r| == |events| && forall i :: 0 <= i < |r| ==> r[i] == Seen(events[i])
  {
    seq(|events|, i requires 0 <= i < |events| => Seen(events[i]))
  }

  /** The transaction of one committed batch. */
  function Batch(s: Setup, logs: Logs, c: Commit): seq<Change>
  {
    AllSeen(Handed(s, logs, c)) + [Block(c.last)]
  }

  function Batches(s: Setup, logs: Logs, commits: seq<Commit>): seq<Change>
    decreases commits
  {
    if commits == [] then [] else Batch(s, logs, commits[0]) + Batches(s, logs, commits[1..])
  }

  lemma {:induction false} BatchesSnoc(s: Setup, logs: Logs, commits: seq<Commit>, c: Commit)
    ensures Batches(s, logs, commits + [c]) == Batches(s, logs, commits) + Batch(s, logs, c)
    decreases commits
  {
    hide Batch;
    if commits == [] {
      assert commits + [c] == [c] && [c][1..] == [];
    } else {
      assert (commits + [c])[0] == commits[0] && (commits + [c])[1..] == commits[1..] + [c];
      BatchesSnoc(s, logs, commits[1..], c);
    }
  }

  function Changes<C>(rows: seq<ChangeRow<C>>): (r: seq<C>)
    ensures |r| == |rows| && forall i :: 0 <= i < |r| ==> r[i] == rows[i].change
  {
    seq(|rows|, i requires 0 <= i < |rows| => rows[i].change)
  }

  function EventOf(c: Change): seq<LogEvent> { if c.Seen? then [c.event] else [] }

  function EventsIn(changes: seq<Change>): (r: seq<LogEvent>)
    ensures forall e :: e in r <==> Seen(e) in changes
    decreases changes
  {
    if changes == [] then []
    else
      assert changes == [changes[0]] + changes[1..];
      EventOf(changes[0]) + EventsIn(changes[1..])
  }

  lemma {:induction false} EventsInConcat(a: seq<Change>, b: seq<Change>)
    ensures EventsIn(a + b) == EventsIn(a) + EventsIn(b)
    decreases a
  {
    if a == [] {
      assert a + b == b;
    } else {
      hide EventOf;
      assert (a + b)[0] == a[0] && (a + b)[1..] == a[1..] + b;
      EventsInConcat(a[1..], b);
    }
  }

  lemma {:induction false} EventsInAllSeen(events: seq<LogEvent>)
    ensures EventsIn(AllSeen(events)) == events
  {
    if events != [] {
      assert AllSeen(events)[1..] == AllSeen(events[1..]);
      EventsInAllSeen(events[1..]);
    }
  }

  lemma {:induction false} EventsInBatches(s: Setup, logs: Logs, commits: seq<Commit>)
    ensures EventsIn(Batches(s, logs, commits)) == AllHanded(s, logs, commits)
    decreases commits
  {
    hide Handed;
    if commits != [] {
      var c := commits[0];
      EventsInBatches(s, logs, commits[1..]);
      EventsInConcat(Batch(s, logs, c), Batches(s, logs, commits[1..]));
      EventsInConcat(AllSeen(Handed(s, logs, c)), [Block(c.last)]);
      EventsInAllSeen(Handed(s, logs, c));
      assert [Block(c.last)][1..] == [];
    }
  }

  // ---------- the state that the log defines ----------

  function StateOf(s: Setup, rows: seq<ChangeRow<Change>>): Known { Fold(Follow, Initial(s), rows) }

  lemma {:induction false} FoldNetworks(k: Known, rows: seq<ChangeRow<Change>>, network: Address)
    ensures network in Fold(Follow, k, rows).networks <==>
      network in k.networks
      || exists e :: e in EventsIn(Changes(rows)) && e.body.Created? && e.body.network == network
    decreases rows
  {
    if rows != [] {
      assert Changes(rows)[1..] == Changes(rows[1..]);
      FoldNetworks(Follow(k, rows[0].change).state, rows[1..], network);
      hide Fold;
    }
  }

  lemma {:induction false} FoldRegistries(k: Known, rows: seq<ChangeRow<Change>>, registry: Address)
    ensures registry in Fold(Follow, k, rows).registries <==>
      registry in k.registries
      || exists e :: e in EventsIn(Changes(rows)) && e.body.Created? && e.body.registry == registry
    decreases rows
  {
    if rows != [] {
      assert Changes(rows)[1..] == Changes(rows[1..]);
      FoldRegistries(Follow(k, rows[0].change).state, rows[1..], registry);
      hide Fold;
    }
  }

  ghost predicate OpenedIn(events: seq<LogEvent>, node: Address, network: Address, channel: nat)
  {
    exists e :: e in events && Opens(e, node, network, channel)
  }

  ghost predicate FinalIn(events: seq<LogEvent>, network: Address, channel: nat)
  {
    exists e :: e in events && InChannel(e, network, channel) && e.body.final
  }

  lemma {:induction false} FoldChannels(k: Known, rows: seq<ChangeRow<Change>>, network: Address, channel: nat)
    ensures var k', events := Fold(Follow, k, rows), EventsIn(Changes(rows));
      k'.node == k.node
      && ((network, channel) in k'.channels ==>
            (network, channel) in k.channels || OpenedIn(events, k.node, network, channel))
      && ((network, channel) in k.channels || OpenedIn(events, k.node, network, channel) ==>
            (network, channel) in k'.channels || FinalIn(events, network, channel))
    decreases rows
  {
    if rows != [] {
      assert Changes(rows)[1..] == Changes(rows[1..]);
      FoldChannels(Follow(k, rows[0].change).state, rows[1..], network, channel);
      hide Fold;
    }
  }

  /** The rows are those of the commits, which end at the block number they define. */
  ghost predicate Kept(s: Setup, logs: Logs, commits: seq<Commit>, rows: seq<ChangeRow<Change>>)
  {
    Changes(rows) == Batches(s, logs, commits) && Chained(s, logs, s.start, commits, StateOf(s, rows).block)
  }

  /** What the log of a node holds, exactly: `HoldsExactly` on the tables. */
  lemma LogHoldsExactly(s: Setup, logs: Logs, commits: seq<Commit>, rows: seq<ChangeRow<Change>>)
    requires WellFormed(logs) && Kept(s, logs, commits, rows)
    ensures EventsIn(Changes(rows)) == AllHanded(s, logs, commits)
    ensures HoldsChain(s, logs, EventsIn(Changes(rows)), StateOf(s, rows).block) <==> NeverAhead(s, logs, commits)
  {
    EventsInBatches(s, logs, commits);
    HoldsExactly(s, logs, commits, StateOf(s, rows).block);
  }

  /**
   `get_contractreceivechannelnew_data_from_event` asserts that the state knows the network of a channel
   that opens. In every log it does.
   */
  lemma NetworkKnown(s: Setup, logs: Logs, commits: seq<Commit>, rows: seq<ChangeRow<Change>>, j: nat)
    requires WellFormed(logs) && Kept(s, logs, commits, rows)
    requires j < |rows| && rows[j].change.Seen? && rows[j].change.event.body.Opened?
    ensures rows[j].change.event.body.network in StateOf(s, rows[..j]).networks
  {
    hide WellFormed, Fold, Chained, Batches, AllHanded;
    var e := rows[j].change.event;
    EventsInBatches(s, logs, commits);
    assert Changes(rows) == Changes(rows[..j]) + ([Seen(e)] + Changes(rows[j + 1..]));
    EventsInConcat(Changes(rows[..j]), [Seen(e)] + Changes(rows[j + 1..]));
    EventsInConcat([Seen(e)], Changes(rows[j + 1..]));
    assert EventsIn([Seen(e)]) == [e];
    hide EventsIn, Changes;
    AnnouncedFirst(s, logs, commits, StateOf(s, rows).block, |EventsIn(Changes(rows[..j]))|);
    FoldNetworks(Initial(s), rows[..j], e.body.network);
  }

  // ---------- what a restart follows ----------

  lemma RebuiltWatches(s: Setup, k: Known, network: Address, channel: nat)
    ensures Watches(Rebuilt(s, k), network, channel) <==> (network, channel) in k.channels && network in k.networks
    ensures Housed(Rebuilt(s, k))
  {
    if (network, channel) in k.channels && network in k.networks {
      var p := (network, channel);
      assert p in k.channels && p.0 in k.networks && p.1 == channel;
    }
  }

  /** The networks that a restart follows are exactly those the registry has created by then. */
  lemma StateNetworks(s: Setup, logs: Logs, commits: seq<Commit>, rows: seq<ChangeRow<Change>>, network: Address)
    requires WellFormed(logs) && Kept(s, logs, commits, rows)
    ensures network in StateOf(s, rows).networks <==> CreatedBy(s, logs, network, StateOf(s, rows).block)
  {
    hide WellFormed, Fold, Chained, Batches, AllHanded, Mined;
    var last := StateOf(s, rows).block;
    EventsInBatches(s, logs, commits);
    FoldNetworks(Initial(s), rows, network);
    forall e: LogEvent | e.body.Created?
      ensures e in EventsIn(Changes(rows)) <==> OnChain(logs, e) && s.start < e.block <= last && Concerns(s, logs, e)
    {
      HandedHas(s, logs, s.start, commits, last, e);
      MinedHas(logs, s.start + 1, last, e);
    }
  }

  lemma StateRegistries(s: Setup, logs: Logs, commits: seq<Commit>, rows: seq<ChangeRow<Change>>)
    requires WellFormed(logs) && Kept(s, logs, commits, rows)
    ensures StateOf(s, rows).registries == {s.registry}
  {
    hide WellFormed, Fold, Chained, Batches, AllHanded, Mined;
    EventsInBatches(s, logs, commits);
    forall r ensures r in StateOf(s, rows).registries <==> r == s.registry {
      FoldRegistries(Initial(s), rows, r);
      forall e: LogEvent | e.body.Created? && e in EventsIn(Changes(rows)) ensures e.body.registry == s.registry {
        HandedHas(s, logs, s.start, commits, StateOf(s, rows).block, e);
      }
    }
  }

  /** Its channels are those that the node has opened by then, except some that are over. */
  lemma StateChannels(
    s: Setup, logs: Logs, commits: seq<Commit>, rows: seq<ChangeRow<Change>>, network: Address, channel: nat)
    requires WellFormed(logs) && Kept(s, logs, commits, rows)
    ensures var k := StateOf(s, rows);
      ((network, channel) in k.channels ==> OpenedBy(s, logs, network, channel, k.block))
      && (OpenedBy(s, logs, network, channel, k.block) && !FinalBy(logs, network, channel, k.block) ==>
            (network, channel) in k.channels)
  {
    hide WellFormed, Fold, Chained, Batches, AllHanded, Mined;
    var last := StateOf(s, rows).block;
    var events := EventsIn(Changes(rows));
    EventsInBatches(s, logs, commits);
    FoldChannels(Initial(s), rows, network, channel);
    forall e: LogEvent | !e.body.Revealed?
      ensures e in events <==> OnChain(logs, e) && s.start < e.block <= last && Concerns(s, logs, e)
    {
      HandedHas(s, logs, s.start, commits, last, e);
      MinedHas(logs, s.start + 1, last, e);
    }
    hide EventsIn, Concerns;
    if (network, channel) in StateOf(s, rows).channels {
      var e :| e in events && Opens(e, s.node, network, channel);
      OpeningConcerns(s, logs, e);
      CreatedBefore(s, logs, e, last);
    }
    if OpenedBy(s, logs, network, channel, last) && !FinalBy(logs, network, channel, last) {
      var e :| OnChain(logs, e) && Opens(e, s.node, network, channel) && s.start < e.block <= last;
      OpeningConcerns(s, logs, e);
      CreatedLater(s, logs, network, last, last);
      assert OpenedIn(events, s.node, network, channel);
    }
  }

  lemma OpeningConcerns(s: Setup, logs: Logs, e: LogEvent)
    requires e.body.Opened?
    ensures Concerns(s, logs, e) <==>
      CreatedEver(s, logs, e.body.network) && (e.body.first == s.node || e.body.second == s.node)
  {
  }

  /** The filter a restart builds covers the log and is up to date, whatever happened before. */
  lemma RebuiltCovers(s: Setup, logs: Logs, commits: seq<Commit>, rows: seq<ChangeRow<Change>>)
    requires WellFormed(logs) && Kept(s, logs, commits, rows)
    ensures var k := StateOf(s, rows);
      Covers(s, logs, Rebuilt(s, k), k.block) && UpToDate(s, logs, Rebuilt(s, k), k.block)
  {
    var k := StateOf(s, rows);
    StateRegistries(s, logs, commits, rows);
    RebuiltWatches(s, k, 0, 0);
    assert Rebuilt(s, k).networks == k.networks && Rebuilt(s, k).registries == k.registries;
    assert Rebuilt(s, k).secretRegistry == Some(s.secretRegistry) && Rebuilt(s, k).serviceRegistry == s.serviceRegistry;
    hide WellFormed, StateOf, Kept, Rebuilt, Housed, Watches, FinalBy, CreatedBy;
    forall n ensures n in k.networks <==> CreatedBy(s, logs, n, k.block) {
      StateNetworks(s, logs, commits, rows, n);
    }
    forall n | CreatedBy(s, logs, n, k.block) ensures CreatedEver(s, logs, n) { }
    forall n, c
      ensures Watches(Rebuilt(s, k), n, c) ==> OpenedBy(s, logs, n, c, k.block)
      ensures OpenedBy(s, logs, n, c, k.block) && !FinalBy(logs, n, c, k.block) ==> Watches(Rebuilt(s, k), n, c)
    {
      RebuiltWatches(s, k, n, c);
      StateChannels(s, logs, commits, rows, n, c);
    }
    forall n, c | OpenedBy(s, logs, n, c, k.block) ensures OpenedEver(s, logs, n, c) { }
  }

  // ---------- committing ----------

  /** A batch sets the block number, and its object is the one published. */
  lemma BatchMoves(s: Setup, logs: Logs, k: Known, c: Commit)
    ensures FoldBatch(Follow, k, Batch(s, logs, c)).block == c.last
    ensures RunObjects(Follow, k, Batch(s, logs, c)).published == FoldBatch(Follow, k, Batch(s, logs, c))
  {
    hide Handed, Learn;
    var i := PublishedExactly(Follow, k, Batch(s, logs, c));
  }

  /** A node keeps the log of its commits with every batch it commits. */
  lemma CommitKeeps(
    s: Setup, logs: Logs, commits: seq<Commit>, n: Node<Known, Change, ()>, c: Commit, clock: nat)
    requires InStep(Follow, Initial(s), n) && Kept(s, logs, commits, n.tables.changes)
    requires CoveredBatch(s, logs, c) && c.block == n.state.block
    ensures var n' := RunBatch(Follow, n, Batch(s, logs, c), clock);
      InStep(Follow, Initial(s), n') && n'.state.block == c.last
      && Kept(s, logs, commits + [c], n'.tables.changes) && n.tables.changes <= n'.tables.changes
  {
    hide Fold, Batch, LogBatch, FoldBatch, RunObjects, Recorded, Ascending, CoveredBatch, Chained, Batches;
    BatchMoves(s, logs, n.state, c);
    CommitInStep(Follow, Initial(s), n, Batch(s, logs, c), clock);
    BatchAppended(Follow, n.tables, n.state, Batch(s, logs, c), clock);
    ChainedSnoc(s, logs, s.start, commits, c);
    BatchesSnoc(s, logs, commits, c);
    var rows' := RunBatch(Follow, n, Batch(s, logs, c), clock).tables.changes;
    assert Changes(rows') == Changes(n.tables.changes) + Batch(s, logs, c);
  }

  /** What the tables hold between two runs of the node. */
  ghost predicate Holds(s: Setup, logs: Logs, commits: seq<Commit>, t: Tables<Known, Change, ()>)
  {
    (t == Tables([], [], []) && commits == [])
    || (Recorded(Follow, Initial(s), t) && Kept(s, logs, commits, t.changes))
  }

  lemma RestartKeeps(s: Setup, logs: Logs, commits: seq<Commit>, t: Tables<Known, Change, ()>, clock: nat)
    requires Holds(s, logs, commits, t) && LastId(t.changes) <= HIGH
    ensures var n := Restart(Follow, t, Initial(s), clock);
      InStep(Follow, Initial(s), n) && Kept(s, logs, commits, n.tables.changes) && n.tables.changes == t.changes
  {
    if t == Tables([], [], []) && commits == [] {
      FirstStartSound<Known, Change, ()>(Follow, Initial(s), clock);
    } else {
      FollowIdempotent();
      hide Kept, Follow;
      assert Newest(t) in t.snapshots;
      IdempotentSettles(Follow, Initial(s), t.changes, Newest(t));
      RestartSound(Follow, Initial(s), t, Initial(s), clock);
    }
  }

  /** The counters take no part in it. */
  lemma OtherCounters(initial: Known, n: Node<Known, Change, ()>, m: Node<Known, Change, ()>)
    requires m.tables == n.tables && m.state == n.state && m.saved == n.saved
    ensures InStep(Follow, initial, n) <==> InStep(Follow, initial, m)
  {
  }

  // ---------- the synchronizer ----------

  /**
   What the Ethereum client does in one turn: it fails in some round of the queries, with a read
   timeout or otherwise, or it answers them in this time and then knows the last block or does not.
   */
  datatype Reply = Reply(failsIn: Option<nat>, timesOut: bool, duration: real, hasBlock: bool)

  /** No failure after the first round, when filters have already been added. */
  predicate Gentle(r: Reply) { r.failsIn.None? || r.failsIn == Some(0) }

  datatype Reason = ClientFailed | BatchTooSmall | NotCommitted | NoSnapshot

  datatype SyncResult = FullySynced | PartiallySynced | Raised(why: Reason)

  class Synchronizer {
    const setup: Setup
    const logs: Logs
    const events: Sync.BlockchainEvents
    const tracker: Tracker
    const service: Service<Known, Change, ()>
    ghost var commits: seq<Commit>

    function BlockNumber(): nat
      reads service, service.log, service.log.state
    {
      service.log.state.value.block
    }

    /** The node is at the end of its log, the log is that of its commits, and the filter covers it. */
    ghost predicate Valid()
      reads this, tracker, service, service.log, service.log.state, service.log.db
    {
      && WellFormed(logs) && tracker.node == setup.node
      && service.log.step == Follow && service.log.db.Idle()
      && InStep(Follow, Initial(setup), service.View())
      && Kept(setup, logs, commits, service.log.db.tables.changes)
      && setup.start <= BlockNumber() && Covers(setup, logs, tracker.eventFilter, BlockNumber())
    }

    /** No filter has ever been ahead of the log. */
    ghost predicate OnTime()
      reads this, tracker, service, service.log, service.log.state
    {
      Punctual(setup, logs, commits) && UpToDate(setup, logs, tracker.eventFilter, BlockNumber())
    }

    function Logged(): seq<LogEvent>
      reads service, service.log, service.log.db
    {
      EventsIn(Changes(service.log.db.tables.changes))
    }

    /**
     A start of the node, the first one or a later one on the tables an earlier run has left. Its
     filter is built from the state that the log defines, and is never ahead.
     */
    constructor (db: Database<Known, Change, ()>, config: Sync.Config, setup: Setup, logs: Logs, clock: nat,
                 ghost commits: seq<Commit>)
      requires WellFormed(logs)
      requires db.Idle() && Holds(setup, logs, commits, db.tables) && LastId(db.tables.changes) <= HIGH
      modifies db
      ensures this.setup == setup && this.logs == logs && this.commits == commits && service.log.db == db
      ensures Valid() && db.tables.changes == old(db.tables).changes
      ensures tracker.eventFilter == Rebuilt(setup, service.log.state.value)
      ensures UpToDate(setup, logs, tracker.eventFilter, BlockNumber())
      ensures fresh(service) && fresh(service.log) && fresh(tracker) && fresh(events) && fresh(events.adjuster)
      ensures events.adjuster.config == config && events.View() == Sync.Position(BlockNumber(), 0)
    {
      hide Kept, InStep, Covers, Follow, WellFormed, UpToDate;
      RestartKeeps(setup, logs, commits, db.tables, clock);
      var recovered := new Service(db, Follow, Initial(setup), clock);
      var k := recovered.log.state.value;
      RebuiltCovers(setup, logs, commits, db.tables.changes);
      StateAtEnd(setup, logs, commits, recovered.View());
      tracker := new Tracker(Rebuilt(setup, k), setup.node);
      events := new Sync.BlockchainEvents(k.block, config);
      service, this.setup, this.logs, this.commits := recovered, setup, logs, commits;
    }

    /** `fetch_logs_in_batch`, with the queries that the filters make. */
    method Poll(target: nat, reply: Reply) returns (outcome: Sync.Outcome, found: seq<LogEvent>, ghost answer: Sync.Answer)
      requires Valid() && events.lastFetched == BlockNumber() < target
      modifies events, events.adjuster, tracker
      ensures Valid()
      ensures (events.View(), outcome) == Sync.Fetch(events.adjuster.config, old(events.View()), target, answer)
      ensures answer.ReadTimeout? ==> reply.failsIn.Some? && reply.timesOut
      ensures answer.Broken? ==> reply.failsIn.Some? && !reply.timesOut
      ensures answer.BlockMissing? ==> !reply.hasBlock
      ensures outcome.Polled? ==>
        var c := Committed(old(tracker.eventFilter), BlockNumber(), outcome.blocks.last);
        CoveredBatch(setup, logs, c) && found == Handed(setup, logs, c)
        && Covers(setup, logs, tracker.eventFilter, c.last)
        && (old(OnTime()) ==> UpToDate(setup, logs, tracker.eventFilter, c.last))
      ensures Gentle(reply) && old(OnTime()) && outcome.Retry? ==> OnTime()
    {
      hide Kept, InStep, Covers, WellFormed, UpToDate, Discover, Rounds, Sync.BatchSize, Mined, Sync.Adjusted;
      ghost var f := tracker.eventFilter;
      var blocks := Sync.NextBlocks(events.adjuster.config, events.View(), target);
      var result, rounds := tracker.QueryAndTrack(Mined(logs, blocks.first, blocks.last), reply.failsIn);
      RoundsCover(setup, logs, f, BlockNumber(), blocks.last, rounds);
      var a: Sync.Answer;
      if result.None? {
        found, a := [], if reply.timesOut then Sync.ReadTimeout else Sync.Broken;
      } else {
        BatchCovers(setup, logs, f, BlockNumber(), blocks.last);
        found, a := result.value, if reply.hasBlock then Sync.Answered(reply.duration) else Sync.BlockMissing(reply.duration);
      }
      answer := a;
      outcome := events.FetchLogsInBatch(target, a);
    }

    /** One transaction with the events of a batch and its `Block`: all of it, or nothing. */
    method CommitBatch(ghost f: Filter, last: nat, found: seq<LogEvent>, clock: nat, fault: Fault) returns (ok: bool)
      requires Valid() && CoveredBatch(setup, logs, Committed(f, BlockNumber(), last))
      requires found == Handed(setup, logs, Committed(f, BlockNumber(), last))
      requires Covers(setup, logs, tracker.eventFilter, last)
      modifies this, service.log, service.log.db
      ensures Valid() && BlockNumber() == if ok then last else old(BlockNumber())
      ensures commits == if ok then old(commits) + [Committed(f, old(BlockNumber()), last)] else old(commits)
      ensures ok <==> !Strikes(fault, |found| + 1)
      ensures old(service.log.db.tables).changes <= service.log.db.tables.changes
    {
      hide Kept, InStep, Covers, WellFormed, Handed, Strikes, Follow, RunBatch, LogRuns.CanSnapshot;
      ghost var c := Committed(f, BlockNumber(), last);
      ghost var n := service.View();
      CommitKeeps(setup, logs, commits, n, c, clock);
      BatchForward(setup, logs, c);
      hide CoveredBatch;
      var batch := AllSeen(found) + [Block(last)];
      ok := service.log.Process(batch, clock, fault, service.qty, service.snapshotQty);
      if ok {
        commits := commits + [c];
        OtherCounters(Initial(setup), service.View(), service.log.View(service.qty + |batch|, service.snapshotQty));
      }
    }

    /** The counters grow once, after the loop, and a snapshot may be due. */
    method CountBatches(applied: nat, clock: nat) returns (ok: bool)
      requires Valid()
      modifies service, service.log.db
      ensures Valid() && service.log.db.tables.changes == old(service.log.db.tables.changes)
      ensures !ok ==> !CanSnapshot(service.View())
    {
      hide Kept, InStep, Covers, WellFormed;
      ghost var n := service.log.View(service.qty + applied, service.snapshotQty);
      OtherCounters(Initial(setup), n, service.View());
      if CanSnapshot(n) { SnapshotInStep(Follow, Initial(setup), n, clock); }
      ok := service.CountChanges(applied, clock);
    }

    /** What the log holds, and that a later start can go on from it. */
    lemma LogHolds()
      requires Valid()
      ensures Logged() == AllHanded(setup, logs, commits)
      ensures HoldsChain(setup, logs, Logged(), BlockNumber()) <==> NeverAhead(setup, logs, commits)
      ensures Punctual(setup, logs, commits) ==> HoldsChain(setup, logs, Logged(), BlockNumber())
      ensures Holds(setup, logs, commits, service.log.db.tables)
    {
      hide HoldsChain, NeverAhead, WellFormed, Covers, Punctual;
      StateAtEnd(setup, logs, commits, service.View());
      LogHoldsExactly(setup, logs, commits, service.log.db.tables.changes);
      if Punctual(setup, logs, commits) { PunctualNeverAhead(setup, logs, commits); }
    }

    /** One turn of the loop: poll, and commit what was found. */
    method Turn(target: nat, reply: Reply, fault: Fault, clock: nat) returns (why: Option<Reason>, applied: nat)
      requires Valid() && events.lastFetched == BlockNumber() < target
      modifies this, events, events.adjuster, tracker, service.log, service.log.db
      ensures Valid() && old(BlockNumber()) <= BlockNumber() <= target
      ensures old(commits) <= commits && old(service.log.db.tables).changes <= service.log.db.tables.changes
      ensures why.None? ==> events.lastFetched == BlockNumber()
      ensures why.None? && BlockNumber() == old(BlockNumber()) ==>
        events.adjuster.steps < old(events.adjuster.steps) && old(events.adjuster.steps) + events.adjuster.config.initial > 0
      ensures old(OnTime()) ==> Punctual(setup, logs, commits) && (Gentle(reply) && why.None? ==> OnTime())
      ensures why == Some(ClientFailed) ==> (reply.failsIn.Some? && !reply.timesOut) || !reply.hasBlock
      ensures why == Some(BatchTooSmall) ==>
        Sync.BatchSize(events.adjuster.config, events.adjuster.steps) == events.adjuster.config.min
      ensures why == Some(NotCommitted) ==> !fault.NoFault?
      ensures why != Some(NoSnapshot)
    {
      hide Kept, InStep, Covers, WellFormed, UpToDate, Handed, CoveredBatch, Sync.BatchSize, Sync.Fetch;
      ghost var f := tracker.eventFilter;
      ghost var p := events.View();
      var outcome, found, answer := Poll(target, reply);
      Sync.AttemptProgress(events.adjuster.config, p, target, answer);
      Sync.AttemptRaises(events.adjuster.config, p, target, answer);
      why, applied := None, 0;
      if outcome.Polled? {
        var ok := CommitBatch(f, outcome.blocks.last, found, clock, fault);
        if !ok { return Some(NotCommitted), 0; }
        applied := |found| + 1;
      } else if !outcome.Retry? {
        why := Some(if outcome.TooSmall? then BatchTooSmall else ClientFailed);
      }
    }

    /**
     `_best_effort_synchronize_with_confirmed_head`. The client, the database and the clocks are
     given by what they do in each turn. The loop ends on its own even if the clock never stops it:
     with the target reached, or with an exception that has one of four reasons. In each case the log
     holds of every kind of event exactly what concerns the node, if and only if no committed batch
     was ahead; and none is, if every failure of the client comes in the first round.
     */
    method Synchronize(target: nat, replies: nat -> Reply, faults: nat -> Fault, clocks: nat -> nat, hasTime: nat -> bool)
      returns (r: SyncResult, turns: nat)
      requires Valid() && events.lastFetched == BlockNumber() <= target
      modifies this, events, events.adjuster, tracker, service, service.log, service.log.db
      ensures Valid() && old(BlockNumber()) <= BlockNumber() <= target
      ensures old(commits) <= commits && old(service.log.db.tables).changes <= service.log.db.tables.changes
      ensures HoldsChain(setup, logs, Logged(), BlockNumber()) <==> NeverAhead(setup, logs, commits)
      ensures old(OnTime()) && (forall k :: 0 <= k < turns ==> Gentle(replies(k))) ==>
        HoldsChain(setup, logs, Logged(), BlockNumber()) && (r.Raised? || OnTime())
      ensures Holds(setup, logs, commits, service.log.db.tables)
      ensures !r.Raised? ==> events.lastFetched == BlockNumber()
      ensures r.FullySynced? ==> BlockNumber() == target
      ensures r.PartiallySynced? ==> BlockNumber() < target && !hasTime(turns)
      ensures r == Raised(ClientFailed) ==>
        (replies(turns).failsIn.Some? && !replies(turns).timesOut) || !replies(turns).hasBlock
      ensures r == Raised(BatchTooSmall) ==>
        Sync.BatchSize(events.adjuster.config, events.adjuster.steps) == events.adjuster.config.min
      ensures r == Raised(NotCommitted) ==> !faults(turns).NoFault?
      ensures r == Raised(NoSnapshot) ==> !CanSnapshot(service.View())
    {
      hide Kept, InStep, Covers, WellFormed, UpToDate, Handed, CoveredBatch, HoldsChain, NeverAhead, Holds, Logged,
        CanSnapshot, Sync.BatchSize, Punctual, Follow, Gentle;
      turns := 0;
      var total: nat := 0;
      while hasTime(turns) && events.lastFetched < target
        invariant Valid() && old(BlockNumber()) <= BlockNumber() == events.lastFetched <= target
        invariant old(commits) <= commits && old(service.log.db.tables).changes <= service.log.db.tables.changes
        invariant old(OnTime()) && (forall k :: 0 <= k < turns ==> Gentle(replies(k))) ==> OnTime()
        decreases target - events.lastFetched, events.adjuster.steps + events.adjuster.config.initial
      {
        var why, applied := Turn(target, replies(turns), faults(turns), clocks(turns));
        if why.Some? {
          LogHolds();
          return Raised(why.value), turns;
        }
        total := total + applied;
        turns := turns + 1;
      }
      var ok := CountBatches(total, clocks(turns));
      LogHolds();
      r := if !ok then Raised(NoSnapshot) else if BlockNumber() < target then PartiallySynced else FullySynced;
    }
  }

  lemma StateAtEnd(s: Setup, logs: Logs, commits: seq<Commit>, n: Node<Known, Change, ()>)
    requires InStep(Follow, Initial(s), n) && Kept(s, logs, commits, n.tables.changes)
    ensures n.state == StateOf(s, n.tables.changes) && s.start <= n.state.block
  {
    ChainedForward(s, logs, s.start, commits, StateOf(s, n.tables.changes).block);
  }
}
