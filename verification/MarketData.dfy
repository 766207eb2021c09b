/** The messages on the market-data path: frame handles and the integrity barriers that stand in
    for frames that were lost. */
module MarketData {
  datatype FrameKind = SnapshotFrame | DeltaFrame | TradeFrame | LifecycleFrame | OtherFrame

  predicate IsBook(kind: FrameKind) { kind.SnapshotFrame? || kind.DeltaFrame? }

  datatype Topology = UnknownTopology | SingleMarket | MutuallyExclusive | MonotonicChain | UnorderedGroup

  datatype Handle = Handle(
    universe: nat, sid: nat, sequence: nat, market: nat, event: nat, shard: nat, eventIndex: nat, marketIndex: nat,
    topology: Topology, kind: FrameKind, recovery: nat, slot: nat)

  datatype Origin = Ingest | FromRouter | FromShard
  datatype IncidentKey = IncidentKey(origin: Origin, producer: nat, id: nat)

  // Reason 0 is "none"; the named ones are those this part of the path produces.
  const NO_REASON: nat := 0
  const ROUTER_TO_SHARD_DELIVERY_LOSS: nat := 1
  const SHARD_FRAME_MISSING: nat := 2
  const SHARD_PARSE_FAILURE: nat := 3

  datatype Barrier = Barrier(
    universe: nat, incident: IncidentKey, sid: nat, sequence: nat, market: nat, event: nat, shard: nat,
    eventIndex: nat, marketIndex: nat, reason: nat)

  datatype SubscriptionBarrier = SubscriptionBarrier(
    universe: nat, incident: IncidentKey, sid: nat, expected: nat, observed: nat, reason: nat)

  datatype Message = Frame(handle: Handle) | MarketBarrier(barrier: Barrier)
                     | Subscription(everything: SubscriptionBarrier)
}
