/**
 Following the chain: batches of blocks whose size adapts to the client, committed to the log
 together with the `Block` state change, across timeouts, failures and restarts.
 */
module BlockSync {
  import opened LockCodec

  const ETH_GET_LOGS_THRESHOLD_FAST := 2.0
  const ETH_GET_LOGS_THRESHOLD_SLOW := 5.0

  // ---------- the batch size ----------

  datatype ConfigData = Config(min: nat, initial: nat, max: nat)

  /** `BlockBatchSizeConfig`. */
  type Config = c: ConfigData | 0 < c.initial && c.min <= c.max witness Config(5, 1000, 100000)

  function Product(a: nat, b: nat): nat { a * b }

  function Quotient(a: nat, b: nat): nat
    requires b > 0
  {
    a / b
  }

  function Power(k: nat): (r: nat)
    ensures r > k
  {
    if k == 0 then 1 else 2 * Power(k - 1)
  }

  /** `int(base ** scale)` for a scale that is `steps` away from the logarithm of the initial size. */
  function Unclamped(c: Config, steps: int): nat
  {
    if steps >= 0 then Product(c.initial, Power(steps)) else Quotient(c.initial, Power(-steps))
  }

  function BatchSize(c: Config, steps: int): (r: nat)
    ensures c.min <= r <= c.max
  {
    var size := Unclamped(c, steps);
    var capped := if size < c.max then size else c.max;
    if capped > c.min then capped else c.min
  }

  lemma QuotientVanishes(a: nat, b: nat)
    requires a < b
    ensures Quotient(a, b) == 0
  {
  }

  /** So many halvings are enough, whatever the configuration. */
  lemma SmallEnough(c: Config, steps: int)
    requires steps + c.initial <= 0
    ensures BatchSize(c, steps) == c.min
  {
    QuotientVanishes(c.initial, Power(-steps));
  }

  class BatchSizeAdjuster {
    const config: Config
    var steps: int

    constructor (config: Config)
      ensures this.config == config && steps == 0
    {
      this.config, steps := config, 0;
    }

    method Increase()
      modifies this
      ensures steps == old(steps) + if BatchSize(config, old(steps)) >= config.max then 0 else 1
    {
      if BatchSize(config, steps) >= config.max { return; }
      steps := steps + 1;
    }

    /** Raises `BlockBatchSizeTooSmall` when it returns false. */
    method Decrease() returns (ok: bool)
      modifies this
      ensures ok <==> BatchSize(config, old(steps)) > config.min
      ensures steps == old(steps) - if ok then 1 else 0
      ensures ok ==> old(steps) + config.initial > 0
    {
      if BatchSize(config, steps) <= config.min { return false; }
      if steps + config.initial <= 0 { SmallEnough(config, steps); }
      steps := steps - 1;
      return true;
    }
  }

  // ---------- one fetch ----------

  /** What the Ethereum client does with the queries of one batch. */
  datatype Answer =
    | ReadTimeout
    | Answered(duration: real)
    | BlockMissing(duration: real)  // the logs are there, but not the last block itself
    | Broken

  datatype Blocks = Blocks(first: nat, last: nat)

  datatype Outcome =
    | Polled(blocks: Blocks)
    | Retry
    | TargetInPast  // ValueError
    | TooSmall      // BlockBatchSizeTooSmall
    | ClientError   // any other exception

  /** The volatile position of `BlockchainEvents`. */
  datatype Position = Position(lastFetched: nat, steps: int)

  function Adjusted(c: Config, steps: int, duration: real, remaining: int): Option<int>
  {
    if duration < ETH_GET_LOGS_THRESHOLD_FAST then
      if remaining > BatchSize(c, steps) && BatchSize(c, steps) < c.max then Some(steps + 1) else Some(steps)
    else if duration > ETH_GET_LOGS_THRESHOLD_SLOW then
      if BatchSize(c, steps) > c.min then Some(steps - 1) else None
    else Some(steps)
  }

  function NextBlocks(c: Config, p: Position, target: nat): (r: Blocks)
    requires p.lastFetched < target
    ensures r.first == p.lastFetched + 1 && r.first <= r.last <= target
  {
    var last := p.lastFetched + 1 + BatchSize(c, p.steps);
    Blocks(p.lastFetched + 1, if last < target then last else target)
  }

  /** `fetch_logs_in_batch`. A slow answer at the minimum raises before the position moves. */
  function Fetch(c: Config, p: Position, target: nat, answer: Answer): (Position, Outcome)
  {
    if target <= p.lastFetched then (p, TargetInPast) else
    var blocks := NextBlocks(c, p, target);
    match answer
    case Broken => (p, ClientError)
    case ReadTimeout =>
      if BatchSize(c, p.steps) > c.min then (p.(steps := p.steps - 1), Retry) else (p, TooSmall)
    case Answered(duration) =>
      var steps := Adjusted(c, p.steps, duration, target - blocks.first);
      if steps.None? then (p, TooSmall) else (Position(blocks.last, steps.value), Polled(blocks))
    case BlockMissing(duration) =>
      var steps := Adjusted(c, p.steps, duration, target - blocks.first);
      if steps.None? then (p, TooSmall) else (p.(steps := steps.value), ClientError)
  }

  class BlockchainEvents {
    var lastFetched: nat
    const adjuster: BatchSizeAdjuster

    constructor (lastFetched: nat, config: Config)
      ensures this.lastFetched == lastFetched && fresh(adjuster) && adjuster.config == config && adjuster.steps == 0
    {
      this.lastFetched := lastFetched;
      adjuster := new BatchSizeAdjuster(config);
    }

    function View(): Position
      reads this, adjuster
    {
      Position(lastFetched, adjuster.steps)
    }

    method FetchLogsInBatch(target: nat, answer: Answer) returns (r: Outcome)
      modifies this, adjuster
      ensures (View(), r) == Fetch(adjuster.config, old(View()), target, answer)
    {
      if target <= lastFetched { return TargetInPast; }
      if answer.Broken? { return ClientError; }
      var first := lastFetched + 1;
      var limit := first + BatchSize(adjuster.config, adjuster.steps);
      var last := if limit < target then limit else target;
      if answer.ReadTimeout? {
        var ok := adjuster.Decrease();
        return if ok then Retry else TooSmall;
      }
      var canUseBigger := target - first > BatchSize(adjuster.config, adjuster.steps);
      if answer.duration < ETH_GET_LOGS_THRESHOLD_FAST {
        if canUseBigger { adjuster.Increase(); }
      } else if answer.duration > ETH_GET_LOGS_THRESHOLD_SLOW {
        var ok := adjuster.Decrease();
        if !ok { return TooSmall; }
      }
      if answer.BlockMissing? { return ClientError; }
      lastFetched := last;
      return Polled(Blocks(first, last));
    }
  }

  // ---------- commits and restarts ----------

  /**
   A node that follows the chain. `block` and `committed` are what the log recovers: the number in
   the last `Block` and the ranges committed with one. `halted` holds from an exception to the
   restart; `head` is the latest block known to be confirmed.
   */
  datatype Node = Node(block: nat, committed: seq<Blocks>, position: Position, halted: bool, head: nat)

  function Start(block: nat): Node
  {
    Node(block, [], Position(block, 0), false, block)
  }

  /** The committed ranges follow one another without gap or overlap from `first` to `last`. */
  predicate GapFree(first: nat, ranges: seq<Blocks>, last: nat)
    decreases ranges
  {
    if ranges == [] then first == last
    else
      ranges[0].first == first + 1 && ranges[0].first <= ranges[0].last
      && GapFree(ranges[0].last, ranges[1..], last)
  }

  datatype Step =
    | Attempt(answer: Answer, commits: bool)  // one turn of the loop; `ChainLog` has its transaction
    | NewHead(head: nat)
    | Restarted

  predicate Possible(n: Node, s: Step)
  {
    match s
    case Attempt(_, _) => !n.halted && n.position.lastFetched < n.head
    case NewHead(head) => head >= n.head
    case Restarted => true
  }

  function Take(c: Config, n: Node, s: Step): Node
    requires Possible(n, s)
  {
    match s
    case NewHead(head) => n.(head := head)
    case Restarted => n.(position := Position(n.block, 0), halted := false)
    case Attempt(answer, commits) =>
      var (position, outcome) := Fetch(c, n.position, n.head, answer);
      match outcome
      case Polled(blocks) =>
        if commits then
          n.(block := blocks.last, committed := n.committed + [blocks], position := position)
        else n.(position := position, halted := true)
      case Retry => n.(position := position)
      case _ => n.(position := position, halted := true)
  }

  predicate IsRun(c: Config, n: Node, steps: seq<Step>)
    decreases steps
  {
    steps == [] || (Possible(n, steps[0]) && IsRun(c, Take(c, n, steps[0]), steps[1..]))
  }

  function After(c: Config, n: Node, steps: seq<Step>): Node
    requires IsRun(c, n, steps)
    decreases steps
  {
    if steps == [] then n else After(c, Take(c, n, steps[0]), steps[1..])
  }

  /** The log is gap free up to the recovered block, which the confirmed head bounds. */
  predicate InStep(start: nat, n: Node)
  {
    && GapFree(start, n.committed, n.block)
    && n.block <= n.head
    && (!n.halted ==> n.position.lastFetched == n.block)
  }

  lemma {:induction false} GapFreeAppend(first: nat, ranges: seq<Blocks>, last: nat, next: Blocks)
    requires GapFree(first, ranges, last) && next.first <= next.last
    ensures GapFree(first, ranges + [next], next.last) <==> next.first == last + 1
    decreases ranges
  {
    if ranges == [] {
      assert ranges + [next] == [next];
      assert [next][1..] == [];
    } else {
      assert (ranges + [next])[1..] == ranges[1..] + [next];
      GapFreeAppend(ranges[0].last, ranges[1..], last, next);
    }
  }

  lemma StepInStep(c: Config, start: nat, n: Node, s: Step)
    requires InStep(start, n) && Possible(n, s)
    ensures InStep(start, Take(c, n, s))
  {
    if s.Attempt? && s.answer.Answered? {
      GapFreeAppend(start, n.committed, n.block, NextBlocks(c, n.position, n.head));
    }
  }

  /** Gap-free synchronisation across timeouts, failures and restarts. */
  lemma {:induction false} RunInStep(c: Config, start: nat, n: Node, steps: seq<Step>)
    requires InStep(start, n) && IsRun(c, n, steps)
    ensures InStep(start, After(c, n, steps))
    decreases steps
  {
    if steps != [] {
      StepInStep(c, start, n, steps[0]);
      RunInStep(c, start, Take(c, n, steps[0]), steps[1..]);
    }
  }

  lemma {:induction false} GapFreeCovers(first: nat, ranges: seq<Blocks>, last: nat, block: nat) returns (i: nat)
    requires GapFree(first, ranges, last) && first < block <= last
    ensures i < |ranges| && ranges[i].first <= block <= ranges[i].last
    ensures forall j :: 0 <= j < |ranges| && ranges[j].first <= block <= ranges[j].last ==> j == i
    decreases ranges
  {
    if block <= ranges[0].last {
      i := 0;
      forall j | 0 < j < |ranges| ensures ranges[j].first > block {
        GapFreeLater(ranges[0].last, ranges[1..], last, j - 1);
      }
    } else {
      var k := GapFreeCovers(ranges[0].last, ranges[1..], last, block);
      i := k + 1;
      forall j | 0 <= j < |ranges| && ranges[j].first <= block <= ranges[j].last ensures j == i {
        assert j > 0 && ranges[1..][j - 1] == ranges[j];
      }
    }
  }

  lemma {:induction false} GapFreeLater(first: nat, ranges: seq<Blocks>, last: nat, j: nat)
    requires GapFree(first, ranges, last) && j < |ranges|
    ensures ranges[j].first > first
    decreases ranges
  {
    if j > 0 {
      GapFreeLater(ranges[0].last, ranges[1..], last, j - 1);
    }
  }

  /** Every block from the start to the recovered one is in exactly one committed range. */
  lemma EveryBlockOnce(c: Config, start: nat, steps: seq<Step>, block: nat) returns (i: nat)
    requires IsRun(c, Start(start), steps) && start < block <= After(c, Start(start), steps).block
    ensures var ranges := After(c, Start(start), steps).committed;
      i < |ranges| && ranges[i].first <= block <= ranges[i].last
      && forall j :: 0 <= j < |ranges| && ranges[j].first <= block <= ranges[j].last ==> j == i
  {
    RunInStep(c, start, Start(start), steps);
    var n := After(c, Start(start), steps);
    i := GapFreeCovers(start, n.committed, n.block, block);
  }

  /**
   Why a failed batch must be followed by a restart: the position has already moved, so the next
   commit of a node that simply went on would leave a gap.
   */
  lemma GoingOnLeavesGap(c: Config, start: nat, n: Node, first: Answer, next: Answer)
    requires InStep(start, n) && Possible(n, Attempt(first, false))
    requires Fetch(c, n.position, n.head, first).1.Polled?
    requires var failed := Take(c, n, Attempt(first, false)).(halted := false);
      Possible(failed, Attempt(next, true)) && Fetch(c, failed.position, failed.head, next).1.Polled?
    ensures var failed := Take(c, n, Attempt(first, false)).(halted := false);
      var n' := Take(c, failed, Attempt(next, true));
      !GapFree(start, n'.committed, n'.block)
  {
    var failed := Take(c, n, Attempt(first, false)).(halted := false);
    GapFreeAppend(start, n.committed, n.block, NextBlocks(c, failed.position, n.head));
  }

  // ---------- progress ----------

  /** The measure: first the blocks left, then the halvings left. */
  lemma AttemptProgress(c: Config, p: Position, target: nat, answer: Answer)
    requires p.lastFetched < target
    ensures var (p', outcome) := Fetch(c, p, target, answer);
      p'.lastFetched <= target
      && (outcome.Polled? ==> p'.lastFetched > p.lastFetched)
      && (outcome.Retry? ==> p'.steps < p.steps && p.steps + c.initial > 0)
      && (!outcome.Polled? ==> p'.lastFetched == p.lastFetched)
  {
    if p.steps + c.initial <= 0 { SmallEnough(c, p.steps); }
  }

  /** Why an attempt raises: the client has failed, or the batches cannot get any smaller. */
  lemma AttemptRaises(c: Config, p: Position, target: nat, answer: Answer)
    requires p.lastFetched < target
    ensures var (p', outcome) := Fetch(c, p, target, answer);
      !outcome.TargetInPast?
      && (outcome.ClientError? <==> answer.Broken? || (answer.BlockMissing? && !outcome.TooSmall?))
      && (outcome.TooSmall? ==> p' == p && BatchSize(c, p.steps) == c.min)
      && (outcome.Polled? ==> outcome.blocks == NextBlocks(c, p, target) && p'.lastFetched == outcome.blocks.last)
  {
  }
}
