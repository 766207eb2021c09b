/** The values exchanged with the order management system: intents from strategies, commands to
    the venue, and answers from it (cpp/include/predex/oms/order_intents.hpp, oms_types.hpp). */
module OmsTypes {
  import opened Wrappers
  import opened Bits

  const PRICE_TICKS_PER_DOLLAR := 10000
  const QUANTITY_LOTS_PER_CONTRACT := 100
  const GROUP_ADMISSION_RESPONSE_SLOTS := 3
  const MAX_ORDERS_PER_GROUP := 10
  const RECONCILIATION_RETRY_NS := 1000000000

  datatype Outcome = UnknownOutcome | Yes | No
  datatype Action = UnknownAction | Buy | Sell
  datatype Liquidity = UnknownLiquidity | Maker | Taker
  datatype OrderType = Limit | MarketableLimit
  datatype TimeInForce = Gtc | Ioc | Fok
  datatype AdmissionPolicy = UnknownPolicy | AllOrNone

  datatype Context = Context(
    strategy: nat, market: nat, event: nat, strategyId: nat, strategyIntent: nat, signal: nat,
    groupIntent: nat, leg: nat, legCount: nat, universe: nat, revision: nat, shard: nat,
    ingress: nat, bookApply: nat, publish: nat, dequeue: nat, evaluated: nat, intentPublish: nat)

  datatype NewOrder = NewOrder(
    context: Context, outcome: Outcome, action: Action, liquidity: Liquidity, orderType: OrderType,
    timeInForce: TimeInForce, price: int, quantity: int)

  datatype GroupIntent = GroupIntent(
    context: Context, orders: seq<NewOrder>, policy: AdmissionPolicy, gross: nat, fee: nat, net: nat)

  datatype OrderState =
    | UnknownState | PendingSubmit | Working | Rejected | PartiallyFilled | Filled
    | PendingCancel | Canceled | PendingModify | Expired | Uncertain

  datatype CommandKind = UnknownCommand | SubmitOrder | CancelOrder | ModifyOrder

  datatype GroupState =
    | Admitted | PendingVenue | GroupWorking | GroupPartiallyFilled | Completed | CancelingRemainder
    | Unwinding | Flattened | GroupUncertain | RepairFailed | RepairRequired | Aborted | GroupRejected

  datatype FailureReason = NoFailure | LegPartiallyFilled | CancelFailed | UnwindFailed | VenueStateUncertain

  datatype RejectReason =
    | TradingDisabled | RiskRejected | InvalidIntent | DuplicateIntent | NotReady
    | UnknownMarket | MarketNotTradeable | ExecutionBlocked

  // A venue command. `repairOf` is the group a cancel or submit repairs, 0 for any other.
  datatype Command =
    | Submit(id: nat, order: NewOrder, reduceOnly: bool, repairOf: nat)
    | SubmitBatch(batchId: nat, group: nat, legs: seq<Command>)
    | Cancel(cancelId: nat, target: nat, repairOf: nat)
    | Modify(modifyId: nat, modified: nat)
    | RequestReconciliation(reconciliationId: nat, version: nat)

  datatype ResultCode = UnknownResult | Acked | RejectedResult | Timeout | TransportError | NotSent

  // An empty client or exchange id is 0; the client id px-<n> is the number n.
  datatype RestResponse = RestResponse(
    request: nat, kind: CommandKind, result: ResultCode, client: nat, exchange: nat)

  datatype BatchResponse = BatchResponse(
    group: nat, result: ResultCode, requested: nat, responses: seq<RestResponse>)

  datatype UserOrder = UserOrder(
    client: nat, exchange: nat, market: nat, outcome: Outcome, state: OrderState,
    ordered: int, filled: int, leaves: int)

  // `average` stands for the rounded long-double average entry price a same-side fill yields.
  datatype Fill = Fill(
    client: nat, exchange: nat, trade: Option<nat>, market: nat, outcome: Outcome, action: Action,
    quantity: int, price: int, average: int)

  datatype VenuePosition = VenuePosition(
    market: nat, event: nat, net: int, cost: int, costPresent: bool, exposure: Option<int>,
    realized: Option<int>, fees: Option<int>)

  datatype PortfolioSnapshot = PortfolioSnapshot(
    id: nat, version: nat, complete: bool, balance: int, positions: seq<VenuePosition>)

  datatype MarketRoute = MarketRoute(market: nat, event: nat, tradeable: bool)
  datatype OrderUniverse = OrderUniverse(version: nat, routes: seq<MarketRoute>)

  datatype RiskConfig = RiskConfig(
    limit: int, safety: int, maxGroupReservation: nat, maxLegs: nat, maxRepairs: nat, maxAge: nat,
    interval: nat, required: bool, strategies: nat)

  // --------------------------------------------------------------- leaf rules

  predicate IsTerminal(st: OrderState) { st.Filled? || st.Canceled? || st.Rejected? || st.Expired? }
  predicate IsLive(st: OrderState) { !st.UnknownState? && !IsTerminal(st) }
  predicate IsCancelable(st: OrderState) { st.PendingSubmit? || st.Working? || st.PartiallyFilled? || st.Uncertain? }

  predicate Broken(st: GroupState) {
    st.RepairRequired? || st.CancelingRemainder? || st.Unwinding? || st.GroupUncertain? || st.RepairFailed?
  }

  predicate TimestampChain(c: Context) {
    0 != c.ingress <= c.bookApply <= c.publish <= c.dequeue <= c.evaluated <= c.intentPublish
  }

  function Max(a: int, b: int): int { if a < b then b else a }
  function Min(a: int, b: int): int { if a < b then a else b }
  function Abs(a: int): nat { if a < 0 then -a else a }

  function FullNotional(lots: int): Option<nat> {
    if lots <= 0 || lots > U64_MAX / PRICE_TICKS_PER_DOLLAR then None
    else
      var product := lots * PRICE_TICKS_PER_DOLLAR;
      Some(product / QUANTITY_LOTS_PER_CONTRACT + if product % QUANTITY_LOTS_PER_CONTRACT != 0 then 1 else 0)
  }

  function AbsoluteLots(lots: int): Option<nat> {
    if lots == I64_MIN then None else Some(Abs(lots))
  }

  function InventoryExposure(lots: nat): Option<nat> {
    if lots == 0 then Some(0) else if lots > I64_MAX then None else FullNotional(lots)
  }

  /** Truncating division by the lots in a contract, of a nonnegative product. */
  function MonetaryTicks(lots: nat, price: int): Option<int> {
    if price < 0 || lots > I64_MAX / (if price == 0 then 1 else price) then None
    else Some(lots * price / QUANTITY_LOTS_PER_CONTRACT)
  }

  function SignedYesLots(outcome: Outcome, action: Action, lots: int): Option<int> {
    if lots <= 0 || outcome.UnknownOutcome? || action.UnknownAction? then None
    else if (outcome.Yes? && action.Buy?) || (outcome.No? && action.Sell?) then Some(lots)
    else Some(-lots)
  }

  /** A reservation is a dollar per contract, exactly, and fits the signed ticks it is stored in. */
  lemma FullNotionalIsDollarPerContract(lots: int)
    ensures FullNotional(lots).Some? <==> 0 < lots <= U64_MAX / PRICE_TICKS_PER_DOLLAR
    ensures FullNotional(lots).Some? ==> FullNotional(lots).value == 100 * lots <= I64_MAX
  {
    if FullNotional(lots).Some? {
      assert lots * PRICE_TICKS_PER_DOLLAR == 100 * lots * QUANTITY_LOTS_PER_CONTRACT;
    }
  }
}
