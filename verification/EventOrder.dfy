/**
 The events of the chain, and the order in which a round returns them.
 */
module EventOrder {
  import opened LockCodec
  import opened StableSort

  datatype Body =
    | Created(registry: Address, network: Address)
    | Opened(network: Address, channel: nat, first: Address, second: Address)
    | OfChannel(network: Address, channel: nat, final: bool)  // `final` if the channel is gone afterwards
    | Revealed(secretRegistry: Address)
    | Registered(serviceRegistry: Address)
    | Other(contract: Address)

  /** A log of the chain; `serial` is its place in the chain. */
  datatype LogEvent = LogEvent(block: nat, serial: nat, body: Body)

  function NotLater(a: LogEvent, b: LogEvent): bool { a.block <= b.block }

  ghost predicate ByBlock(s: seq<LogEvent>) { Ordered(NotLater, s) }

  /** `sort_events`. */
  function Sorted(s: seq<LogEvent>): (r: seq<LogEvent>)
    ensures forall x :: x in r <==> x in s
  {
    Sort(NotLater, s)
  }

  /** Any selection of logs that were in block order comes out of the sort as it went in. */
  lemma SelectSorted(s: seq<LogEvent>, logs: seq<LogEvent>, p: LogEvent -> bool)
    requires ByBlock(logs) && (Select(s, p) == Select(logs, p) || Select(s, p) == [])
    ensures Select(Sorted(s), p) == Select(s, p)
  {
    SelectSort(NotLater, s, p);
    SelectOrdered(NotLater, logs, p);
    SortUnchanged(NotLater, Select(s, p));
  }
}
