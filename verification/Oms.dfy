/** The order management system (cpp/src/oms/oms.cpp) as a state machine: every handler is one
    step on a state of orders, groups, portfolios, positions and latched flags. The venue command
    queue is an oracle over its uses, pushes and looks at its size alike: `accept(k)` says whether use
    number k, a push, succeeds, and `room(k)` how many free slots use number k, a look, shows. No
    answer binds another, so the oracles range over everything a consumer may do meanwhile. Class
    OrderManager in module OmsObject runs these steps in place. */
module Oms {
  import opened Wrappers
  import opened Bits
  import opened Sums
  import opened OmsTypes

  datatype Order = Order(
    context: Context, state: OrderState, previous: OrderState, outcome: Outcome, action: Action,
    market: nat, ordered: int, price: int, filled: int, leaves: int,
    pending: nat, pendingKind: CommandKind, exchange: nat,
    group: nat, leg: nat, repair: bool, accounted: bool, reserved: int)

  // One leg of a group: its original order, its active repair order (0 for none) and the signed
  // YES lots its fills left behind.
  datatype Leg = Leg(request: nat, repair: nat, residual: int)

  // `overflowed` and `submitRounds` are history: the overflow guard fired on a fill of this group;
  // the number of repair rounds that put at least one order on the wire.
  datatype Group = Group(
    context: Context, state: GroupState, failure: FailureReason, legs: seq<Leg>,
    cancelRounds: nat, repairRounds: nat, reserved: nat, exposed: bool, released: bool,
    uncertain: bool, overflowed: bool, submitRounds: nat)

  datatype Portfolio = Portfolio(
    limit: int, available: int, reserved: int, inventory: int, realized: int, fees: int,
    openOrders: nat, activeGroups: nat)

  datatype Position = Position(
    strategy: nat, market: nat, event: nat, net: int, average: int, cost: int, exposure: int,
    realized: int, fees: int)

  // What an accounted trade id contributed: signed YES lots to one leg of one group.
  datatype Contribution = Contribution(group: nat, leg: nat, lots: int)

  // Orders, the exchange ids they were given, and the next request id.
  datatype Desk = Desk(orders: map<nat, Order>, byExchange: map<nat, nat>, nextRequest: nat)

  // The venue command queue: how often it was used and what went through.
  datatype Wire = Wire(uses: nat, log: seq<Command>)

  datatype Money = Money(
    portfolios: map<nat, Portfolio>, positions: map<(nat, nat), Position>, balance: int, reconciled: bool)

  // `reconciledFor` is history: the universe version of the last complete reconciliation.
  datatype Gate = Gate(
    incident: bool, trading: bool, universe: Option<OrderUniverse>, reconciledFor: nat,
    nextReconciliation: nat, activeReconciliation: nat, nextDue: nat, reconcileNeeded: bool)

  datatype State = State(
    desk: Desk, wire: Wire, groups: map<nat, Group>, byIntent: map<(nat, nat), nat>, nextGroup: nat,
    trades: map<nat, Contribution>, money: Money, gate: Gate)

  datatype Queue = Queue(accept: nat -> bool, room: nat -> int)

  const Initial := State(Desk(map[], map[], 1), Wire(0, []), map[], map[], 1, map[],
                         Money(map[], map[], 0, false), Gate(false, false, None, 0, 1, 0, 0, false))

  // ------------------------------------------------------------ small pieces

  /** send_kalshi_command(). */
  function Send(w: Wire, q: Queue, cmd: Command): (Wire, bool) {
    if q.accept(w.uses) then (Wire(w.uses + 1, w.log + [cmd]), true) else (Wire(w.uses + 1, w.log), false)
  }

  /** After a look at how much room there is. */
  function Looked(w: Wire): Wire { w.(uses := w.uses + 1) }

  /** latch_execution_incident(). */
  function Latch(t: Gate): Gate { t.(incident := true, trading := false) }

  predicate AnyBroken(groups: map<nat, Group>) {
    exists g :: g in groups && Broken(groups[g].state)
  }

  function ClearPending(o: Order): Order {
    o.(pending := 0, pendingKind := UnknownCommand, previous := UnknownState)
  }

  function RestorePrevious(o: Order): Order {
    ClearPending(if o.previous.UnknownState? then o else o.(state := o.previous))
  }

  function WithOrder(d: Desk, id: nat, o: Order): Desk { d.(orders := d.orders[id := o]) }

  // ---------------------------------------------------------------- capital

  function PositiveReserved(p: Portfolio): int { Max(0, p.reserved) }

  /** The loop over all portfolios, which saturates at the largest 64-bit value. */
  ghost function GlobalReserved(portfolios: map<nat, Portfolio>): int {
    Min(I64_MAX, Sum(portfolios, PositiveReserved))
  }

  function StrategyAvailable(p: Portfolio): int {
    var committed := if Max(0, p.inventory) > I64_MAX - Max(0, p.reserved) then I64_MAX
                     else Max(0, p.reserved) + Max(0, p.inventory);
    Max(0, p.limit - Min(p.limit, committed))
  }

  function VenueAfterSafety(cfg: RiskConfig, balance: int): int {
    Max(0, balance - Min(balance, Max(0, cfg.safety)))
  }

  /** recompute_strategy_available_capital(). */
  function Available(cfg: RiskConfig, reconciled: bool, balance: int, global: int, p: Portfolio): int {
    if !cfg.required then StrategyAvailable(p)
    else if !reconciled then 0
    else
      var venue := VenueAfterSafety(cfg, balance);
      Min(StrategyAvailable(p), Max(0, venue - Min(venue, global)))
  }

  ghost function Recomputed(m: Money, cfg: RiskConfig, p: Portfolio): Portfolio {
    p.(available := Available(cfg, m.reconciled, m.balance, GlobalReserved(m.portfolios), p))
  }

  /** The stored portfolio of a strategy, or the one ensure_strategy_portfolio() would insert. */
  function PortfolioOf(m: Money, cfg: RiskConfig, k: nat): Portfolio {
    if k in m.portfolios then m.portfolios[k] else Portfolio(cfg.limit, cfg.limit, 0, 0, 0, 0, 0, 0)
  }

  /** Store a portfolio and refresh its own available capital only. */
  ghost function StoreOne(m: Money, cfg: RiskConfig, k: nat, p: Portfolio): Money {
    var m1 := m.(portfolios := m.portfolios[k := p]);
    m1.(portfolios := m1.portfolios[k := Recomputed(m1, cfg, p)])
  }

  /** ensure_strategy_portfolio(). */
  ghost function EnsurePortfolio(m: Money, cfg: RiskConfig, k: nat): Money {
    if k in m.portfolios then m else StoreOne(m, cfg, k, PortfolioOf(m, cfg, k))
  }

  ghost function RecomputeAll(m: Money, cfg: RiskConfig): Money {
    m.(portfolios := map k | k in m.portfolios :: Recomputed(m, cfg, m.portfolios[k]))
  }

  /** Store a portfolio as it is. */
  function Store(m: Money, k: nat, p: Portfolio): Money { m.(portfolios := m.portfolios[k := p]) }

  /** Count `n` more open orders; nothing else about the portfolio changes. */
  ghost function OpenOrders(m: Money, cfg: RiskConfig, k: nat, n: nat): Money {
    var m1 := EnsurePortfolio(m, cfg, k);
    var p := PortfolioOf(m1, cfg, k);
    Store(m1, k, p.(openOrders := p.openOrders + n))
  }

  /** reserve_group_capital(). */
  ghost function Reserve(m: Money, cfg: RiskConfig, k: nat, amount: nat): (Money, bool) {
    if amount == 0 || amount > I64_MAX then (m, false)
    else
      var m1 := EnsurePortfolio(m, cfg, k);
      var p := PortfolioOf(m1, cfg, k);
      if p.available < amount then (m1, false)
      else (StoreOne(m1, cfg, k, p.(reserved := p.reserved + amount, activeGroups := p.activeGroups + 1)), true)
  }

  /** What release_group_capital() takes off the portfolio. */
  ghost function Releasable(m: Money, cfg: RiskConfig, grp: Group): int {
    Min(PortfolioOf(m, cfg, grp.context.strategy).reserved, grp.reserved)
  }

  /** release_group_capital() on the portfolio of a group that still holds capital. */
  ghost function ReleaseMoney(m: Money, cfg: RiskConfig, grp: Group): Money {
    var k := grp.context.strategy;
    var m1 := EnsurePortfolio(m, cfg, k);
    var p := PortfolioOf(m1, cfg, k);
    StoreOne(m1, cfg, k, p.(reserved := p.reserved - Releasable(m, cfg, grp),
                            activeGroups := if p.activeGroups > 0 then p.activeGroups - 1 else 0))
  }

  ghost function ReleasedGroup(m: Money, cfg: RiskConfig, grp: Group): Group {
    grp.(reserved := grp.reserved - Releasable(m, cfg, grp), released := true)
  }

  /** release_group_capital() on a stored group. */
  ghost function ReleaseGroup(s: State, cfg: RiskConfig, g: nat, grp: Group): State {
    if grp.released then s.(groups := s.groups[g := grp])
    else s.(groups := s.groups[g := ReleasedGroup(s.money, cfg, grp)], money := ReleaseMoney(s.money, cfg, grp))
  }

  /** Take `amount` off the group that owns an order, if there is one. */
  function ReduceGroup(groups: map<nat, Group>, g: nat, amount: int): map<nat, Group> {
    if g !in groups then groups
    else groups[g := groups[g].(reserved := groups[g].reserved - Min(groups[g].reserved, Max(0, amount)))]
  }

  // ------------------------------------------------------ terminal accounting

  function OneLess(n: nat): nat { if n > 0 then n - 1 else 0 }

  /** account_terminal_order(). */
  ghost function AccountTerminal(s: State, cfg: RiskConfig, id: nat): State {
    if id !in s.desk.orders || !IsTerminal(s.desk.orders[id].state) || s.desk.orders[id].accounted then s
    else
      var o := s.desk.orders[id];
      var k := o.context.strategy;
      var m := EnsurePortfolio(s.money, cfg, k);
      var p := PortfolioOf(m, cfg, k);
      var released := if o.state.Filled? || o.reserved <= 0 then 0 else Min(p.reserved, o.reserved);
      s.(desk := WithOrder(s.desk, id, o.(accounted := true, reserved := o.reserved - released)),
         groups := ReduceGroup(s.groups, o.group, released),
         money := RecomputeAll(Store(m, k, p.(openOrders := OneLess(p.openOrders), reserved := p.reserved - released)),
                               cfg))
  }

  // ---------------------------------------------------------- fill accounting

  function FillOutcome(o: Order, e: Fill): Outcome { if e.outcome.UnknownOutcome? then o.outcome else e.outcome }
  function FillAction(o: Order, e: Fill): Action { if e.action.UnknownAction? then o.action else e.action }

  predicate WellFormedFill(o: Order, e: Fill) {
    && e.quantity > 0 && 0 < e.price < PRICE_TICKS_PER_DOLLAR
    && !FillOutcome(o, e).UnknownOutcome? && !FillAction(o, e).UnknownAction?
  }

  /** Signed YES lots of a fill, 0 when it is malformed. */
  function FillLots(o: Order, e: Fill): int {
    if WellFormedFill(o, e) then SignedYesLots(FillOutcome(o, e), FillAction(o, e), e.quantity).value else 0
  }

  function YesPrice(o: Order, e: Fill): int {
    if FillOutcome(o, e).Yes? then e.price else PRICE_TICKS_PER_DOLLAR - e.price
  }

  predicate Overflows(residual: int, lots: int) {
    (lots > 0 && residual > I64_MAX - lots) || (lots < 0 && residual < I64_MIN - lots)
  }

  /** The residual update of a group with its overflow guard. */
  function AddResidual(grp: Group, leg: nat, lots: int): Group {
    if leg >= |grp.legs| then grp
    else if Overflows(grp.legs[leg].residual, lots) then grp.(uncertain := true, overflowed := true)
    else grp.(legs := grp.legs[leg := grp.legs[leg].(residual := grp.legs[leg].residual + lots)])
  }

  /** The group table after a fill of order `o`. */
  function FilledGroups(groups: map<nat, Group>, o: Order, e: Fill): map<nat, Group> {
    if WellFormedFill(o, e) && o.group in groups
    then groups[o.group := AddResidual(groups[o.group], o.leg, FillLots(o, e))]
    else groups
  }

  /** What a trade is recorded to have contributed. */
  function Contributes(groups: map<nat, Group>, o: Order, e: Fill): Contribution {
    if WellFormedFill(o, e) && o.group in groups && o.leg < |groups[o.group].legs|
    then Contribution(o.group, o.leg, FillLots(o, e))
    else Contribution(0, 0, 0)
  }

  /** The profit of closing lots at `exit` that were entered at `entry`. */
  function ClosingPnl(lots: nat, exit: int, entry: int): int {
    var ticks := MonetaryTicks(lots, Abs(exit - entry));
    if ticks.None? then 0 else if exit >= entry then ticks.value else -ticks.value
  }

  function ExposureOf(net: int): int {
    var lots := AbsoluteLots(net);
    if lots.None? || InventoryExposure(lots.value).None? then I64_MAX else InventoryExposure(lots.value).value
  }

  /** The position after a fill of `lots` signed YES lots. */
  function FilledPosition(p: Position, lots: int, yesPrice: int, average: int): Position {
    var (held, delta) := (Abs(p.net), Abs(lots));
    var side := if lots > 0 then yesPrice else PRICE_TICKS_PER_DOLLAR - yesPrice;
    var same := p.net == 0 || (p.net > 0) == (lots > 0);
    var exit := if p.net > 0 then yesPrice else PRICE_TICKS_PER_DOLLAR - yesPrice;
    var average' :=
      if same then if held + delta == 0 then p.average else average
      else if delta > held then side
      else if delta == held then 0
      else p.average;
    var realized' := if same then p.realized else p.realized + ClosingPnl(Min(held, delta), exit, p.average);
    var net' := p.net + lots;
    var lots' := AbsoluteLots(net');
    var cost := if lots'.None? || MonetaryTicks(lots'.value, average').None? then 0
                else MonetaryTicks(lots'.value, average').value;
    p.(net := net', average := average', realized := realized', cost := cost, exposure := ExposureOf(net'))
  }

  /** The stored position of a strategy in a market, or the one that would be inserted. */
  function PositionOf(m: Money, k: nat, market: nat, event: nat): Position {
    if (k, market) in m.positions then m.positions[(k, market)] else Position(k, market, event, 0, 0, 0, 0, 0, 0)
  }

  /** Replace a position and shift the totals of its portfolio by the difference. */
  function StorePosition(m: Money, k: nat, p: Portfolio, was: Position, now: Position): Money {
    m.(positions := m.positions[(k, was.market) := now],
       portfolios := m.portfolios[k := p.(inventory := p.inventory + now.exposure - was.exposure,
                                          realized := p.realized + now.realized - was.realized,
                                          fees := p.fees + now.fees - was.fees)])
  }

  /** account_fill() on positions and portfolios: the totals and the released reservation. */
  ghost function FilledMoney(m: Money, cfg: RiskConfig, o: Order, e: Fill, released: int): Money {
    var k := o.context.strategy;
    var m1 := EnsurePortfolio(m, cfg, k);
    var was := PositionOf(m1, k, o.market, o.context.event);
    var now := FilledPosition(was, FillLots(o, e), YesPrice(o, e), e.average);
    var m2 := StorePosition(m1, k, PortfolioOf(m1, cfg, k), was, now);
    var p := PortfolioOf(m2, cfg, k);
    RecomputeAll(Store(m2, k, p.(reserved := p.reserved - Min(p.reserved, released))), cfg)
  }

  /** The reservation a fill takes off its order. */
  function FillRelease(o: Order, e: Fill): int {
    if FullNotional(e.quantity).None? then 0 else Min(o.reserved, FullNotional(e.quantity).value)
  }

  /** account_fill() returns early when a lot count has no absolute value. */
  predicate FillStops(m: Money, o: Order, e: Fill) {
    PositionOf(m, o.context.strategy, o.market, o.context.event).net == I64_MIN || FillLots(o, e) == I64_MIN
  }

  /** account_fill(). */
  ghost function AccountFill(s: State, cfg: RiskConfig, id: nat, e: Fill): State {
    if id !in s.desk.orders || !WellFormedFill(s.desk.orders[id], e) then s
    else
      var o := s.desk.orders[id];
      var k := o.context.strategy;
      var groups := FilledGroups(s.groups, o, e);
      if FillStops(s.money, o, e) then
        var m := EnsurePortfolio(s.money, cfg, k);
        s.(groups := groups,
           money := m.(positions := m.positions[(k, o.market) := PositionOf(m, k, o.market, o.context.event)]))
      else
        var released := FillRelease(o, e);
        s.(desk := WithOrder(s.desk, id, o.(reserved := o.reserved - released)),
           groups := ReduceGroup(groups, o.group, released),
           money := FilledMoney(s.money, cfg, o, e, released),
           gate := s.gate.(reconcileNeeded := cfg.required))
  }

  // ------------------------------------------------------------ group repair

  /** emit_cancel_command_for_record(); the command id is fresh. */
  function EmitCancel(d: Desk, w: Wire, q: Queue, id: nat, repairOf: nat): (Desk, Wire, bool) {
    var d0 := d.(nextRequest := d.nextRequest + 1);
    if id !in d.orders || !IsCancelable(d.orders[id].state) then (d0, w, false)
    else
      var (w1, ok) := Send(w, q, Cancel(d.nextRequest, id, repairOf));
      if !ok then (d0, w1, false)
      else
        var o := d.orders[id];
        (WithOrder(d0, id,
                   o.(previous := o.state, state := PendingCancel, pending := d.nextRequest,
                      pendingKind := CancelOrder)), w1, true)
  }

  /** Cancel a list of orders; the number of commands that went out. */
  function CancelEach(d: Desk, w: Wire, q: Queue, ids: seq<nat>, repairOf: nat): (Desk, Wire, nat)
    decreases |ids|
  {
    if ids == [] then (d, w, 0)
    else
      var (d1, w1, ok) := EmitCancel(d, w, q, ids[0], repairOf);
      var (d2, w2, n) := CancelEach(d1, w1, q, ids[1..], repairOf);
      (d2, w2, if ok then n + 1 else n)
  }

  predicate HasResidual(legs: seq<Leg>) { exists i :: 0 <= i < |legs| && legs[i].residual != 0 }

  /** Some original leg is missing or in doubt. */
  predicate LegInDoubt(orders: map<nat, Order>, legs: seq<Leg>) {
    exists i :: 0 <= i < |legs| && (legs[i].request !in orders || orders[legs[i].request].state.Uncertain?)
  }

  predicate SomeLeg(orders: map<nat, Order>, legs: seq<Leg>, p: Order -> bool) {
    exists i :: 0 <= i < |legs| && legs[i].request in orders && p(orders[legs[i].request])
  }

  predicate AllLegs(orders: map<nat, Order>, legs: seq<Leg>, p: Order -> bool) {
    forall i :: 0 <= i < |legs| ==> legs[i].request in orders && p(orders[legs[i].request])
  }

  predicate CancelIsPending(o: Order) { o.state.PendingCancel? }
  predicate HasFill(o: Order) { o.filled > 0 }
  predicate IsFilled(o: Order) { o.state.Filled? }
  predicate HasEnded(o: Order) { IsTerminal(o.state) }
  predicate IsPartial(o: Order) { o.state.PartiallyFilled? }
  predicate HasFailed(o: Order) { IsTerminal(o.state) && !o.state.Filled? }
  predicate HoldsNothing(o: Order) { o.reserved == 0 }

  /** The original legs that can still be canceled, in leg order. */
  function Cancelables(orders: map<nat, Order>, legs: seq<Leg>): (r: seq<nat>)
    ensures |r| <= |legs|
  {
    if legs == [] then []
    else if legs[0].request in orders && IsCancelable(orders[legs[0].request].state) then
      [legs[0].request] + Cancelables(orders, legs[1..])
    else Cancelables(orders, legs[1..])
  }

  predicate RepairInDoubt(orders: map<nat, Order>, legs: seq<Leg>) {
    exists i :: 0 <= i < |legs| && legs[i].repair != 0 &&
      (legs[i].repair !in orders || orders[legs[i].repair].state.Uncertain?)
  }

  predicate RepairLive(orders: map<nat, Order>, legs: seq<Leg>) {
    exists i :: 0 <= i < |legs| && legs[i].repair != 0 && legs[i].repair in orders &&
      !orders[legs[i].repair].state.Uncertain? && IsLive(orders[legs[i].repair].state)
  }

  /** Forget the repair orders that ended. */
  function RetireRepairs(orders: map<nat, Order>, legs: seq<Leg>): seq<Leg> {
    seq(|legs|, i requires 0 <= i < |legs| =>
      if legs[i].repair in orders && !IsLive(orders[legs[i].repair].state) then legs[i].(repair := 0) else legs[i])
  }

  function UncertainOr(uncertain: bool, st: GroupState): GroupState { if uncertain then GroupUncertain else st }

  function ResidualCount(legs: seq<Leg>): nat {
    if legs == [] then 0 else (if legs[0].residual != 0 then 1 else 0) + ResidualCount(legs[1..])
  }

  // The effect of one pass over a group under repair. `latch`: the incident flag is set again;
  // `done`: nothing is left, capital goes back; `placed`: repair orders put on the wire.
  datatype Repair = Repair(desk: Desk, wire: Wire, group: Group, latch: bool, done: bool, reconcile: bool, placed: nat)

  function Hold(d: Desk, w: Wire, grp: Group): Repair { Repair(d, w, grp, false, false, false, 0) }

  /** fail_group_repair(). */
  function FailRepair(d: Desk, w: Wire, grp: Group, reason: FailureReason): Repair {
    Hold(d, w, grp.(state := RepairFailed, failure := reason, exposed := HasResidual(grp.legs))).(latch := true)
  }

  /** The cancel round of continue_group_repair(). */
  function CancelRound(d: Desk, w: Wire, q: Queue, cfg: RiskConfig, g: nat, grp: Group, ids: seq<nat>): Repair {
    if grp.cancelRounds >= cfg.maxRepairs then
      if grp.uncertain then Hold(d, w, grp.(state := GroupUncertain)) else FailRepair(d, w, grp, CancelFailed)
    else if q.room(w.uses) < |ids| then
      Hold(d, Looked(w), grp.(state := UncertainOr(grp.uncertain, RepairRequired)))
    else
      var (d1, w1, sent) := CancelEach(d, Looked(w), q, ids, g);
      var uncertain := grp.uncertain || sent != |ids|;
      Hold(d1, w1, grp.(uncertain := uncertain,
                        cancelRounds := if sent > 0 then grp.cancelRounds + 1 else grp.cancelRounds,
                        state := UncertainOr(uncertain, CancelingRemainder))).(reconcile := uncertain)
  }

  /** The action that takes a residual back to zero. */
  function RepairAction(outcome: Outcome, residual: int): Action {
    if outcome.Yes? then if residual < 0 then Buy else Sell
    else if outcome.No? then if residual < 0 then Sell else Buy
    else UnknownAction
  }

  function RepairIntent(original: Order, leg: nat, residual: int): NewOrder {
    var action := RepairAction(original.outcome, residual);
    NewOrder(original.context.(leg := leg), original.outcome, action, Taker, MarketableLimit, Fok,
             if action.Buy? then PRICE_TICKS_PER_DOLLAR - 1 else 1, Abs(residual))
  }

  function RepairOrder(original: Order, id: nat, g: nat, leg: nat, residual: int): Order {
    var order := RepairIntent(original, leg, residual);
    Order(order.context, PendingSubmit, UnknownState, order.outcome, order.action, original.market,
          order.quantity, order.price, 0, order.quantity, id, SubmitOrder, 0, g, leg, true, false, 0)
  }

  datatype Submitted = Submitted(desk: Desk, wire: Wire, legs: seq<Leg>, sent: nat, doubt: bool)

  /** No repair order can be built for leg `i`. */
  predicate Unrepairable(d: Desk, leg: Leg) {
    leg.request !in d.orders || leg.residual == I64_MIN || d.orders[leg.request].outcome.UnknownOutcome?
  }

  /** The submit loop of continue_group_repair() from leg `i` on, `sent` commands so far. */
  function SubmitEach(d: Desk, w: Wire, q: Queue, g: nat, legs: seq<Leg>, i: nat, sent: nat): Submitted
    decreases |legs| - i
  {
    if i >= |legs| then Submitted(d, w, legs, sent, false)
    else if legs[i].residual == 0 then SubmitEach(d, w, q, g, legs, i + 1, sent)
    else if Unrepairable(d, legs[i]) then Submitted(d, w, legs, sent, true)
    else
      var original := d.orders[legs[i].request];
      var id := d.nextRequest;
      var d1 := d.(nextRequest := id + 1);
      var (w1, ok) := Send(w, q, Submit(id, RepairIntent(original, i, legs[i].residual), true, g));
      if !ok then Submitted(d1, w1, legs[i := legs[i].(repair := 0)], sent, sent > 0)
      else SubmitEach(WithOrder(d1, id, RepairOrder(original, id, g, i, legs[i].residual)), w1, q, g,
                      legs[i := legs[i].(repair := id)], i + 1, sent + 1)
  }

  /** The submit round of continue_group_repair(). */
  function SubmitRound(d: Desk, w: Wire, q: Queue, g: nat, grp: Group): Repair {
    var r := SubmitEach(d, w, q, g, grp.legs, 0, 0);
    var grp1 := grp.(legs := r.legs, submitRounds := if r.sent > 0 then grp.submitRounds + 1 else grp.submitRounds);
    if r.doubt then
      Hold(r.desk, r.wire,
           grp1.(uncertain := true, state := GroupUncertain, failure := VenueStateUncertain)).(latch := true)
    else if r.sent == 0 then Hold(r.desk, r.wire, grp1)
    else Hold(r.desk, r.wire, grp1.(repairRounds := grp.repairRounds + 1, state := Unwinding)).(placed := r.sent)
  }

  /** continue_group_repair() once no original leg is left to cancel. */
  function Unwind(d: Desk, w: Wire, q: Queue, cfg: RiskConfig, g: nat, was: Group): Repair {
    var grp := was.(uncertain := was.uncertain || RepairInDoubt(d.orders, was.legs),
                    legs := RetireRepairs(d.orders, was.legs), exposed := HasResidual(was.legs));
    if grp.uncertain then
      Hold(d, w, grp.(state := GroupUncertain, failure := VenueStateUncertain)).(reconcile := true)
    else if !grp.exposed then
      var filled := SomeLeg(d.orders, was.legs, HasFill);
      var ended := grp.(state := if filled then Flattened else Aborted,
                        failure := if filled then grp.failure else NoFailure);
      Hold(d, w, ended).(done := true)
    else if RepairLive(d.orders, was.legs) then Hold(d, w, grp.(state := Unwinding))
    else if grp.repairRounds >= cfg.maxRepairs then FailRepair(d, w, grp, UnwindFailed)
    else if q.room(w.uses) < ResidualCount(grp.legs) then Hold(d, Looked(w), grp.(state := RepairRequired))
    else SubmitRound(d, Looked(w), q, g, grp)
  }

  /** continue_group_repair() on the group it is called for. */
  function RepairPass(d: Desk, w: Wire, q: Queue, cfg: RiskConfig, g: nat, was: Group): Repair {
    var grp := was.(uncertain := was.uncertain || LegInDoubt(d.orders, was.legs));
    var ids := Cancelables(d.orders, was.legs);
    if ids != [] then CancelRound(d, w, q, cfg, g, grp, ids)
    else if SomeLeg(d.orders, was.legs, CancelIsPending)
    then Hold(d, w, grp.(state := UncertainOr(grp.uncertain, CancelingRemainder)))
    else Unwind(d, w, q, cfg, g, grp)
  }

  /** A pass over group `g` written back into the whole state. */
  ghost function ApplyRepair(s: State, cfg: RiskConfig, g: nat, r: Repair): State {
    var gate := if r.latch then Latch(s.gate) else s.gate;
    var s1 := s.(desk := r.desk, wire := r.wire, groups := s.groups[g := r.group],
                 gate := if r.reconcile then gate.(reconcileNeeded := cfg.required) else gate);
    if r.done then
      var s2 := ReleaseGroup(s1, cfg, g, r.group);
      s2.(gate := s2.gate.(incident := AnyBroken(s2.groups)))
    else if r.placed > 0 then s1.(money := OpenOrders(s1.money, cfg, r.group.context.strategy, r.placed))
    else s1
  }

  /** continue_group_repair(). */
  ghost function ContinueRepair(s: State, q: Queue, cfg: RiskConfig, g: nat, grp: Group): State {
    if grp.released || grp.state.RepairFailed? then s.(groups := s.groups[g := grp])
    else ApplyRepair(s, cfg, g, RepairPass(s.desk, s.wire, q, cfg, g, grp))
  }

  /** begin_group_repair(). */
  ghost function BeginRepair(s: State, q: Queue, cfg: RiskConfig, g: nat, was: Group, reason: FailureReason): State {
    var uncertain := was.uncertain || reason.VenueStateUncertain?;
    var grp := was.(uncertain := uncertain, failure := reason, exposed := HasResidual(was.legs),
                    state := UncertainOr(uncertain, RepairRequired));
    ContinueRepair(s.(gate := Latch(s.gate)), q, cfg, g, grp)
  }

  /** The classification of a healthy group by the states of its legs. */
  ghost function SettleGroup(s: State, q: Queue, cfg: RiskConfig, g: nat, was: Group): State {
    var orders := s.desk.orders;
    var grp := was.(exposed := HasResidual(was.legs));
    var allFilled := AllLegs(orders, was.legs, IsFilled);
    var allEnded := AllLegs(orders, was.legs, HasEnded);
    var anyFill := SomeLeg(orders, was.legs, HasFill);
    if LegInDoubt(orders, was.legs) || was.uncertain || (allFilled && !AllLegs(orders, was.legs, HoldsNothing)) then
      BeginRepair(s, q, cfg, g, grp, VenueStateUncertain)
    else if allFilled then ReleaseGroup(s, cfg, g, grp.(state := Completed, failure := NoFailure, exposed := false))
    else if allEnded && !anyFill
    then ReleaseGroup(s, cfg, g, grp.(state := Aborted, failure := NoFailure, exposed := false))
    else if SomeLeg(orders, was.legs, IsPartial) || SomeLeg(orders, was.legs, HasFailed) || (allEnded && anyFill) then
      BeginRepair(s, q, cfg, g, grp, LegPartiallyFilled)
    else s.(groups := s.groups[g := grp.(state := if anyFill then GroupPartiallyFilled else GroupWorking)])
  }

  /** update_group_after_order_state_change() for order `id`. */
  ghost function UpdateGroup(s: State, q: Queue, cfg: RiskConfig, id: nat): State {
    if id !in s.desk.orders || s.desk.orders[id].group == 0 || s.desk.orders[id].group !in s.groups then s
    else
      var o := s.desk.orders[id];
      var was := s.groups[o.group];
      if o.repair || Broken(was.state) then
        ContinueRepair(s, q, cfg, o.group, was.(uncertain := was.uncertain || o.state.Uncertain?))
      else if was.released then s
      else SettleGroup(s, q, cfg, o.group, was)
  }

  predicate NeedsService(st: GroupState) { st.RepairRequired? || st.CancelingRemainder? || st.Unwinding? }

  /** service_execution_incidents(), visiting the groups in the order `gs`. */
  ghost function ServiceEach(s: State, q: Queue, cfg: RiskConfig, gs: seq<nat>): State
    decreases |gs|
  {
    if gs == [] then s
    else if gs[0] in s.groups && NeedsService(s.groups[gs[0]].state) then
      ServiceEach(ContinueRepair(s, q, cfg, gs[0], s.groups[gs[0]]), q, cfg, gs[1..])
    else ServiceEach(s, q, cfg, gs[1..])
  }

  // --------------------------------------------------------- strategy intents

  predicate ReadyForTrading(s: State, cfg: RiskConfig) { cfg.required ==> s.money.reconciled }

  /** The route table installed for a universe: a later route for a market replaces an earlier one. */
  function FindRoute(routes: seq<MarketRoute>, market: nat): Option<MarketRoute> {
    if routes == [] then None
    else if routes[|routes| - 1].market == market then Some(routes[|routes| - 1])
    else FindRoute(routes[..|routes| - 1], market)
  }

  function RouteOf(universe: Option<OrderUniverse>, market: nat): Option<MarketRoute> {
    if universe.None? then None else FindRoute(universe.value.routes, market)
  }

  function FreshOrder(o: NewOrder, pending: nat, kind: CommandKind, g: nat, leg: nat, reserved: int): Order {
    Order(o.context, PendingSubmit, UnknownState, o.outcome, o.action, o.context.market, o.quantity, o.price, 0,
          o.quantity,
          pending, kind, 0, g, leg, false, false, reserved)
  }

  function JudgeNewOrder(s: State, cfg: RiskConfig, o: NewOrder): Option<RejectReason> {
    var route := RouteOf(s.gate.universe, o.context.market);
    if s.gate.incident then Some(ExecutionBlocked)
    else if !s.gate.trading then Some(TradingDisabled)
    else if !ReadyForTrading(s, cfg) then Some(NotReady)
    else if o.quantity <= 0 || o.price <= 0 || o.outcome.UnknownOutcome? || o.action.UnknownAction?
    then Some(InvalidIntent)
    else if route.None? then Some(UnknownMarket)
    else if !route.value.tradeable then Some(MarketNotTradeable)
    else if FullNotional(o.quantity).None? || FullNotional(o.quantity).value > I64_MAX then Some(RiskRejected)
    else None
  }

  /** handle_strategy_intent(NewOrderIntent). */
  ghost function OnNewOrder(s: State, q: Queue, cfg: RiskConfig, o: NewOrder): State {
    var id := s.desk.nextRequest;
    var d := s.desk.(nextRequest := id + 1);
    if JudgeNewOrder(s, cfg, o).Some? || FullNotional(o.quantity).None? then s.(desk := d)
    else
      var amount := FullNotional(o.quantity).value;
      var k := o.context.strategy;
      var m := EnsurePortfolio(s.money, cfg, k);
      var p := PortfolioOf(m, cfg, k);
      if p.available < amount then s.(desk := d, money := m)
      else
        var m1 := RecomputeAll(Store(m, k, p.(reserved := p.reserved + amount)), cfg);
        var (w, ok) := Send(s.wire, q, Submit(id, o, false, 0));
        var p1 := PortfolioOf(m1, cfg, k);
        if !ok then
          s.(desk := d, wire := w, money := RecomputeAll(Store(m1, k, p1.(reserved := p1.reserved - amount)), cfg))
        else
          s.(desk := WithOrder(d, id, FreshOrder(o, 0, UnknownCommand, 0, 0, amount)), wire := w,
             money := OpenOrders(m1, cfg, k, 1))
  }

  /** handle_strategy_intent(CancelOrderIntent). */
  function OnCancel(s: State, q: Queue, target: nat): State {
    var (d, w, _) := EmitCancel(s.desk, s.wire, q, target, 0);
    s.(desk := d, wire := w)
  }

  /** handle_strategy_intent(ModifyOrderIntent). */
  function OnModify(s: State, q: Queue, target: nat): State {
    var id := s.desk.nextRequest;
    var d := s.desk.(nextRequest := id + 1);
    if s.gate.incident || target !in s.desk.orders then s.(desk := d)
    else
      var (w, ok) := Send(s.wire, q, Modify(id, target));
      var o := s.desk.orders[target];
      s.(wire := w,
         desk := if !ok then d
                 else WithOrder(d, target, o.(previous := o.state, state := PendingModify, pending := id,
                                              pendingKind := ModifyOrder)))
  }

  // -------------------------------------------------------- group admission

  predicate SameEnvelope(leg: Context, group: Context, i: nat, legCount: nat) {
    && leg.strategy == group.strategy && leg.event == group.event && leg.strategyId == group.strategyId
    && leg.signal == group.signal && leg.groupIntent == group.groupIntent && leg.universe == group.universe
    && leg.revision == group.revision && leg.shard == group.shard
    && leg.leg == i && leg.legCount == legCount && leg.market != 0 && leg.strategyIntent != 0
  }

  predicate LegShape(o: NewOrder) {
    && 0 < o.price < PRICE_TICKS_PER_DOLLAR && o.quantity > 0
    && !o.outcome.UnknownOutcome? && !o.action.UnknownAction?
    && o.liquidity.Taker? && o.orderType.MarketableLimit? && o.timeInForce.Fok?
  }

  predicate RepeatsEarlier(orders: seq<NewOrder>, i: nat)
    requires i < |orders|
  {
    exists j :: 0 <= j < i && (orders[j].context.market == orders[i].context.market ||
                               orders[j].context.strategyIntent == orders[i].context.strategyIntent)
  }

  function JudgeLeg(universe: Option<OrderUniverse>, intent: GroupIntent, i: nat): Option<RejectReason>
    requires i < |intent.orders|
  {
    var leg := intent.orders[i];
    var route := RouteOf(universe, leg.context.market);
    if !SameEnvelope(leg.context, intent.context, i, |intent.orders|) || !LegShape(leg)
        || !TimestampChain(leg.context) then
      Some(InvalidIntent)
    else if route.None? then Some(UnknownMarket)
    else if !route.value.tradeable then Some(MarketNotTradeable)
    else if route.value.event != intent.context.event || RepeatsEarlier(intent.orders, i) then Some(InvalidIntent)
    else None
  }

  /** The leg loop from leg `i` on, with the capital required so far. */
  function JudgeLegs(universe: Option<OrderUniverse>, intent: GroupIntent, i: nat, required: nat)
    : (Option<RejectReason>, nat)
    requires i <= |intent.orders|
    decreases |intent.orders| - i
  {
    if i == |intent.orders| then (None, required)
    else if JudgeLeg(universe, intent, i).Some? then (JudgeLeg(universe, intent, i), required)
    else
      var notional := FullNotional(intent.orders[i].quantity);
      if notional.None? || required > U64_MAX - notional.value then (Some(RiskRejected), required)
      else JudgeLegs(universe, intent, i + 1, required + notional.value)
  }

  /** The checks before the leg loop; `slots` is the free room in the strategy's response queue. */
  function JudgeEnvelope(s: State, cfg: RiskConfig, intent: GroupIntent, now: nat, slots: Option<int>)
    : Option<RejectReason>
  {
    var c := intent.context;
    var u := s.gate.universe;
    if s.gate.incident then Some(ExecutionBlocked)
    else if !s.gate.trading then Some(TradingDisabled)
    else if u.None? || u.value.version == 0 || !ReadyForTrading(s, cfg) then Some(NotReady)
    else if !intent.policy.AllOrNone? then Some(InvalidIntent)
    else if slots.None? || slots.value < GROUP_ADMISSION_RESPONSE_SLOTS then Some(NotReady)
    else if c.groupIntent == 0 || c.event == 0 || c.universe == 0 || c.revision == 0 || c.legCount != |intent.orders|
    then Some(InvalidIntent)
    else if c.universe != u.value.version then Some(InvalidIntent)
    else if |intent.orders| < 2 || |intent.orders| > MAX_ORDERS_PER_GROUP || |intent.orders| > cfg.maxLegs
    then Some(InvalidIntent)
    else if cfg.limit <= 0 || cfg.maxGroupReservation == 0 || cfg.maxAge == 0 then Some(RiskRejected)
    else if !TimestampChain(c) || c.intentPublish > now || now - c.intentPublish > cfg.maxAge then Some(InvalidIntent)
    else if (c.strategy, c.groupIntent) in s.byIntent && s.byIntent[(c.strategy, c.groupIntent)] in s.groups
    then Some(DuplicateIntent)
    else if intent.gross < intent.fee || intent.net != intent.gross - intent.fee || intent.net == 0
    then Some(InvalidIntent)
    else None
  }

  /** check_group_admission(): a rejection, or the capital the group needs. */
  function JudgeGroup(s: State, cfg: RiskConfig, intent: GroupIntent, now: nat, slots: Option<int>)
    : (Option<RejectReason>, nat)
  {
    if JudgeEnvelope(s, cfg, intent, now, slots).Some? then (JudgeEnvelope(s, cfg, intent, now, slots), 0)
    else
      var (reason, required) := JudgeLegs(s.gate.universe, intent, 0, 0);
      var available := PortfolioOf(s.money, cfg, intent.context.strategy).available;
      if reason.Some? then (reason, 0)
      else if required == 0 || required > cfg.maxGroupReservation || required > I64_MAX || available < 0
           || required > available
      then (Some(RiskRejected), 0)
      else (None, required)
  }

  function Notional(lots: int): nat { if FullNotional(lots).None? then 0 else FullNotional(lots).value }

  function LegOrder(intent: GroupIntent, g: nat, first: nat, i: nat): Order
    requires i < |intent.orders|
  {
    FreshOrder(intent.orders[i], first + i, SubmitOrder, g, i, Notional(intent.orders[i].quantity))
  }

  /** The order table with the leg records of a group, whose request ids start at `first`. */
  function WithLegs(orders: map<nat, Order>, intent: GroupIntent, g: nat, first: nat, n: nat): map<nat, Order>
    requires n <= |intent.orders|
  {
    if n == 0 then orders
    else WithLegs(orders, intent, g, first, n - 1)[first + n - 1 := LegOrder(intent, g, first, n - 1)]
  }

  function LegCommands(intent: GroupIntent, first: nat): seq<Command> {
    seq(|intent.orders|, i requires 0 <= i < |intent.orders| => Submit(first + i, intent.orders[i], false, 0))
  }

  function FreshGroup(intent: GroupIntent, first: nat, required: nat): Group {
    Group(intent.context, Admitted, NoFailure,
          seq(|intent.orders|, i requires 0 <= i < |intent.orders| => Leg(first + i, 0, 0)),
          0, 0, required, false, false, false, false, 0)
  }

  /** handle_strategy_intent(GroupOrderIntent). */
  ghost function OnGroup(s: State, q: Queue, cfg: RiskConfig, intent: GroupIntent, now: nat, slots: Option<int>)
    : State
  {
    var (reason, required) := JudgeGroup(s, cfg, intent, now, slots);
    if reason.Some? then s
    else
      var (g, batch, first) := (s.nextGroup, s.desk.nextRequest, s.desk.nextRequest + 1);
      var s0 := s.(nextGroup := g + 1, desk := s.desk.(nextRequest := first + |intent.orders|));
      var (m, reserved) := Reserve(s.money, cfg, intent.context.strategy, required);
      if !reserved then s0.(money := m) else AdmitGroup(s0.(money := m), q, cfg, intent, g, batch, first, required)
  }

  /** The rest of admission once capital is reserved: store the group, send it, or roll back. */
  ghost function AdmitGroup(s: State, q: Queue, cfg: RiskConfig, intent: GroupIntent, g: nat, batch: nat, first: nat,
                            required: nat): State {
    var k := intent.context.strategy;
    var grp := FreshGroup(intent, first, required);
    var (w, ok) := Send(s.wire, q, SubmitBatch(batch, g, LegCommands(intent, first)));
    if !ok then s.(wire := w, money := ReleaseMoney(s.money, cfg, grp))
    else
      s.(wire := w,
         groups := s.groups[g := grp.(state := PendingVenue)],
         byIntent := s.byIntent[(k, intent.context.groupIntent) := g],
         desk := s.desk.(orders := WithLegs(s.desk.orders, intent, g, first, |intent.orders|)),
         money := OpenOrders(s.money, cfg, k, |intent.orders|))
  }

  // ------------------------------------------------------------ venue events

  function ByExchange(d: Desk, exchange: nat): Option<nat> {
    if exchange != 0 && exchange in d.byExchange && d.byExchange[exchange] in d.orders
    then Some(d.byExchange[exchange]) else None
  }

  /** The order find_order_for_rest_response() may pick: the last resort scans an unordered map. */
  predicate Resolves(d: Desk, r: RestResponse, target: Option<nat>) {
    if r.client != 0 then target == (if r.client in d.orders then Some(r.client) else None)
    else if r.exchange != 0 then target == ByExchange(d, r.exchange)
    else if r.request in d.orders then target == Some(r.request)
    else match target
      case Some(id) => r.request != 0 && id in d.orders && d.orders[id].pending == r.request
      case None => r.request == 0 || forall id :: id in d.orders ==> d.orders[id].pending != r.request
  }

  /** Remember the exchange id of an order. */
  function Linked(d: Desk, id: nat, exchange: nat): Desk {
    if exchange == 0 || id !in d.orders then d
    else d.(orders := d.orders[id := d.orders[id].(exchange := exchange)], byExchange := d.byExchange[exchange := id])
  }

  /** The order-state switch of a REST answer. */
  function Answered(o: Order, kind: CommandKind, result: ResultCode): Order {
    match result
    case Acked => ClearPending(AckedOrder(o, kind))
    case RejectedResult => RefusedOrder(o, kind)
    case NotSent => RefusedOrder(o, kind)
    case Timeout => o.(previous := o.state, state := Uncertain)
    case TransportError => o.(previous := o.state, state := Uncertain)
    case UnknownResult => o
  }

  function AckedOrder(o: Order, kind: CommandKind): Order {
    match kind
    case SubmitOrder => o.(state := Working)
    case CancelOrder => o.(state := PendingCancel)
    case ModifyOrder => o.(state := PendingModify)
    case UnknownCommand => o
  }

  function RefusedOrder(o: Order, kind: CommandKind): Order {
    match kind
    case SubmitOrder => ClearPending(o.(state := Rejected, leaves := 0))
    case CancelOrder => RestorePrevious(o)
    case ModifyOrder => RestorePrevious(o)
    case UnknownCommand => o
  }

  /** handle_venue_event(RestOrderResponse) without the group update. */
  ghost function RestOrder(s: State, cfg: RiskConfig, r: RestResponse, target: Option<nat>): State {
    if target.None? || target.value !in s.desk.orders then s
    else
      var id := target.value;
      var d := Linked(s.desk, id, r.exchange);
      if id !in d.orders then s
      else AccountTerminal(s.(desk := WithOrder(d, id, Answered(d.orders[id], r.kind, r.result))), cfg, id)
  }

  /** handle_venue_event(RestOrderResponse). */
  ghost function OnRest(s: State, q: Queue, cfg: RiskConfig, r: RestResponse, target: Option<nat>): State {
    if target.None? || target.value !in s.desk.orders then s
    else UpdateGroup(RestOrder(s, cfg, r, target), q, cfg, target.value)
  }

  /** A leg without its own result takes the one of the batch. */
  function LegResult(leg: RestResponse, batch: ResultCode): RestResponse {
    if !leg.result.UnknownResult? then leg
    else leg.(result := if batch.UnknownResult? then TransportError else batch)
  }

  /** The deferred leg loop of a batch answer, with the order each leg resolves to. */
  ghost function RestLegs(s: State, cfg: RiskConfig, b: BatchResponse, targets: seq<Option<nat>>, i: nat): State
    requires |targets| == |b.responses|
    decreases |b.responses| - i
  {
    if i >= |b.responses| then s
    else if b.responses[i].request == 0 then RestLegs(s, cfg, b, targets, i + 1)
    else RestLegs(RestOrder(s, cfg, LegResult(b.responses[i], b.result), targets[i]), cfg, b, targets, i + 1)
  }

  predicate CorrelationMissing(b: BatchResponse) {
    |b.responses| != b.requested || exists i :: 0 <= i < |b.responses| && b.responses[i].request == 0
  }

  /** handle_venue_event(RestOrderBatchResponse). */
  ghost function OnBatch(s: State, q: Queue, cfg: RiskConfig, b: BatchResponse, targets: seq<Option<nat>>): State
    requires |targets| == |b.responses|
  {
    var s1 := RestLegs(s, cfg, b, targets, 0);
    if b.group !in s1.groups || s1.groups[b.group].legs == [] then s1
    else
      var grp := s1.groups[b.group];
      if CorrelationMissing(b) || grp.legs[0].request !in s1.desk.orders then
        BeginRepair(s1, q, cfg, b.group, grp.(uncertain := true), VenueStateUncertain)
      else UpdateGroup(s1, q, cfg, grp.legs[0].request)
  }

  function FindRecord(d: Desk, client: nat, exchange: nat): Option<nat> {
    if client != 0 && client in d.orders then Some(client) else ByExchange(d, exchange)
  }

  function UserOrderApplied(o: Order, e: UserOrder): Order {
    ClearPending(o.(state := e.state, outcome := e.outcome, market := e.market,
                    ordered := e.ordered, filled := e.filled, leaves := e.leaves))
  }

  /** handle_venue_event(PrivateWsOrderEvent), user-order kind. */
  ghost function OnUserOrder(s: State, q: Queue, cfg: RiskConfig, e: UserOrder): State {
    var found := FindRecord(s.desk, e.client, e.exchange);
    if found.None? then s
    else
      var id := found.value;
      var d := Linked(s.desk, id, e.exchange);
      if id !in d.orders then s
      else UpdateGroup(AccountTerminal(s.(desk := WithOrder(d, id, UserOrderApplied(d.orders[id], e))), cfg, id), q,
                       cfg, id)
  }

  /** The order record after a fill, before the money is accounted. */
  function FilledOrder(o: Order, e: Fill): Order {
    var o1 := o.(outcome := if e.outcome.UnknownOutcome? then o.outcome else e.outcome,
                 market := if e.market != 0 then e.market else o.market,
                 filled := o.filled + e.quantity,
                 leaves := if o.leaves >= e.quantity then o.leaves - e.quantity else o.leaves);
    if o1.leaves == 0 && o1.ordered > 0 then ClearPending(o1.(state := Filled))
    else if o1.filled > 0 then o1.(state := PartiallyFilled)
    else o1
  }

  /** A new trade id, the order it filled and what it contributed, before the money moves. */
  function RecordTrade(s: State, d: Desk, id: nat, e: Fill): State
    requires id in d.orders && e.trade.Some?
  {
    var o := FilledOrder(d.orders[id], e);
    s.(desk := WithOrder(d, id, o), trades := s.trades[e.trade.value := Contributes(s.groups, o, e)])
  }

  /** handle_venue_event(PrivateWsOrderEvent), fill kind. */
  ghost function OnFill(s: State, q: Queue, cfg: RiskConfig, e: Fill): State {
    var found := FindRecord(s.desk, e.client, e.exchange);
    if found.None? then s
    else
      var id := found.value;
      var d := Linked(s.desk, id, e.exchange);
      if id !in d.orders then s
      else if e.trade.None? || e.trade.value in s.trades then s.(desk := d)
      else UpdateGroup(AccountTerminal(AccountFill(RecordTrade(s, d, id, e), cfg, id, e), cfg, id), q, cfg, id)
  }

  // ---------------------------------------------------------- reconciliation

  function AverageFromCost(cost: int, net: int): int {
    var lots := AbsoluteLots(net);
    if lots.Some? && lots.value > 0 && cost >= 0 && cost <= U64_MAX / QUANTITY_LOTS_PER_CONTRACT then
      cost * QUANTITY_LOTS_PER_CONTRACT / lots.value
    else 0
  }

  function VenueExposure(v: VenuePosition): int {
    if v.exposure.Some? then v.exposure.value else ExposureOf(v.net)
  }

  /** A stored position overwritten by a venue position message. */
  function OverwrittenPosition(p: Position, v: VenuePosition): Position {
    p.(net := v.net,
       cost := if v.costPresent then v.cost else p.cost,
       realized := if v.realized.Some? then v.realized.value else p.realized,
       fees := if v.fees.Some? then v.fees.value else p.fees,
       exposure := VenueExposure(v),
       average := AverageFromCost(v.cost, v.net))
  }

  /** apply_venue_market_position(). */
  ghost function VenuePositionApplied(m: Money, cfg: RiskConfig, v: VenuePosition): Money {
    if v.market == 0 || cfg.strategies != 1 then m
    else
      var m1 := EnsurePortfolio(m, cfg, 0);
      var was := PositionOf(m1, 0, v.market, v.event);
      RecomputeAll(StorePosition(m1, 0, PortfolioOf(m1, cfg, 0), was, OverwrittenPosition(was, v)), cfg)
  }

  /** handle_venue_event(PrivateWsOrderEvent), market-position kind. */
  ghost function OnPosition(s: State, cfg: RiskConfig, v: VenuePosition): State {
    s.(money := VenuePositionApplied(s.money, cfg, v), gate := s.gate.(reconcileNeeded := cfg.required))
  }

  /** The positions of a snapshot by market; a later one for a market replaces an earlier one. */
  function VenueByMarket(ps: seq<VenuePosition>): map<nat, VenuePosition> {
    if ps == [] then map[]
    else
      var rest := VenueByMarket(ps[..|ps| - 1]);
      var last := ps[|ps| - 1];
      if last.market == 0 then rest else rest[last.market := last]
  }

  /** A market the snapshot reports. */
  function ReportedPosition(was: Position, v: VenuePosition, m: nat): Position {
    Position(0, m, v.event, v.net,
             if v.costPresent then AverageFromCost(v.cost, v.net) else was.average,
             if v.costPresent then v.cost else was.cost,
             VenueExposure(v),
             if v.realized.Some? then v.realized.value else was.realized,
             if v.fees.Some? then v.fees.value else was.fees)
  }

  /** A market the snapshot dropped keeps only what was realized and paid. */
  function DroppedPosition(was: Position, m: nat): Position {
    Position(0, m, was.event, 0, 0, 0, 0, was.realized, was.fees)
  }

  function SnapshotKeys(m: Money, venue: map<nat, VenuePosition>): set<(nat, nat)> {
    m.positions.Keys + (set x | x in venue :: (0, x))
  }

  function SnapshotPosition(m: Money, venue: map<nat, VenuePosition>, k: (nat, nat)): Position {
    if k.0 != 0 && k in m.positions then m.positions[k]
    else if k.1 in venue then ReportedPosition(PositionOf(m, 0, k.1, 0), venue[k.1], k.1)
    else DroppedPosition(PositionOf(m, 0, k.1, 0), k.1)
  }

  function SnapshotPositions(m: Money, venue: map<nat, VenuePosition>): map<(nat, nat), Position> {
    map k | k in SnapshotKeys(m, venue) :: SnapshotPosition(m, venue, k)
  }

  // What each reported market adds to the totals of strategy 0.
  datatype Shift = Shift(exposure: int, realized: int, fees: int)

  function ShiftOf(m: Money, v: VenuePosition, x: nat): Shift {
    var was := PositionOf(m, 0, x, 0);
    var now := ReportedPosition(was, v, x);
    Shift(now.exposure, now.realized - was.realized, now.fees - was.fees)
  }

  function Shifts(m: Money, venue: map<nat, VenuePosition>): map<nat, Shift> {
    map x | x in venue :: ShiftOf(m, venue[x], x)
  }

  function ShiftExposure(x: Shift): int { x.exposure }
  function ShiftRealized(x: Shift): int { x.realized }
  function ShiftFees(x: Shift): int { x.fees }

  /** All venue inventory belongs to the only strategy. */
  ghost function AdoptPositions(m: Money, cfg: RiskConfig, venue: map<nat, VenuePosition>): Money {
    var m1 := EnsurePortfolio(m, cfg, 0);
    var p := PortfolioOf(m1, cfg, 0);
    var shifts := Shifts(m, venue);
    m1.(positions := SnapshotPositions(m, venue),
        portfolios := m1.portfolios[0 := p.(inventory := Sum(shifts, ShiftExposure),
                                            realized := p.realized + Sum(shifts, ShiftRealized),
                                            fees := p.fees + Sum(shifts, ShiftFees))])
  }

  /** handle_venue_event(VenuePortfolioSnapshot). */
  ghost function OnSnapshot(s: State, cfg: RiskConfig, snap: PortfolioSnapshot, now: nat): State {
    var gate := s.gate.(activeReconciliation := 0);
    if snap.id == 0 || snap.id != s.gate.activeReconciliation then s
    else if s.gate.universe.None? || snap.version != s.gate.universe.value.version then
      s.(gate := gate.(reconcileNeeded := true, nextDue := 0))
    else if !snap.complete then
      s.(gate := gate.(reconcileNeeded := true, nextDue := now + RECONCILIATION_RETRY_NS, trading := false),
         money := RecomputeAll(s.money.(reconciled := false), cfg))
    else
      var m := s.money.(balance := snap.balance, reconciled := true);
      s.(gate := gate.(reconciledFor := snap.version, nextDue := if cfg.interval == 0 then 0 else now + cfg.interval),
         money := RecomputeAll(
           if cfg.strategies == 1 then AdoptPositions(m, cfg, VenueByMarket(snap.positions)) else m, cfg))
  }

  /** A reconciliation is due: one is needed and its retry time has come, or the period is over. */
  predicate ReconciliationDue(s: State, cfg: RiskConfig, now: nat) {
    && cfg.required && s.gate.universe.Some? && s.gate.universe.value.version != 0 && s.gate.activeReconciliation == 0
    && if s.gate.reconcileNeeded then s.gate.nextDue == 0 || now >= s.gate.nextDue
       else cfg.interval != 0 && s.money.reconciled && now >= s.gate.nextDue
  }

  /** maybe_request_portfolio_reconciliation(). */
  function MaybeReconcile(s: State, q: Queue, cfg: RiskConfig, now: nat): State {
    if !ReconciliationDue(s, cfg, now) then s
    else
      var id := s.gate.nextReconciliation;
      var (w, ok) := Send(s.wire, q, RequestReconciliation(id, s.gate.universe.value.version));
      var gate := s.gate.(nextReconciliation := id + 1);
      s.(wire := w, gate := if ok then gate.(activeReconciliation := id, reconcileNeeded := false) else gate)
  }

  // --------------------------------------------------------- control commands

  function OnAllow(s: State, cfg: RiskConfig): State {
    s.(gate := s.gate.(trading := !s.gate.incident && s.gate.universe.Some? && s.gate.universe.value.version != 0 &&
                                  ReadyForTrading(s, cfg)))
  }

  function OnDisable(s: State): State { s.(gate := s.gate.(trading := false)) }

  /** CancelAllOrders, visiting the orders in the order `ids`. */
  function OnCancelAll(s: State, q: Queue, ids: seq<nat>): State {
    var (d, w, _) := CancelEach(s.desk, s.wire, q, ids, 0);
    s.(desk := d, wire := w, gate := s.gate.(trading := false))
  }

  /** ApplyOrderRouteUniverse. */
  ghost function OnUniverse(s: State, cfg: RiskConfig, u: Option<OrderUniverse>): State {
    var previous := if s.gate.universe.None? then 0 else s.gate.universe.value.version;
    var gate := s.gate.(universe := u);
    if u.Some? && u.value.version == previous then s.(gate := gate)
    else if !cfg.required then s.(gate := gate.(trading := false))
    else
      s.(gate := gate.(trading := false, reconcileNeeded := u.Some?, nextDue := 0),
         money := RecomputeAll(s.money.(reconciled := false), cfg))
  }

  // -------------------------------------------------------------------- steps

  datatype Event =
    | NewOrderArrives(order: NewOrder)
    | CancelArrives(cancelTarget: nat)
    | ModifyArrives(modifyTarget: nat)
    | GroupArrives(intent: GroupIntent, at: nat, slots: Option<int>)
    | RestArrives(rest: RestResponse, resolved: Option<nat>)
    | BatchArrives(batch: BatchResponse, targets: seq<Option<nat>>)
    | UserOrderArrives(user: UserOrder)
    | FillArrives(fill: Fill)
    | PositionArrives(position: VenuePosition)
    | SnapshotArrives(snapshot: PortfolioSnapshot, receivedAt: nat)
    | AllowTrading
    | DisableTrading
    | CancelAllOrders(everyOrder: seq<nat>)
    | ApplyUniverse(routes: Option<OrderUniverse>)
    | ServiceIncidents(everyGroup: seq<nat>)
    | PumpReconciliation(pumpedAt: nat)

  /** The leg targets of a batch are those the code finds at each leg's turn. */
  ghost predicate LegsResolve(s: State, cfg: RiskConfig, b: BatchResponse, targets: seq<Option<nat>>, i: nat)
    requires |targets| == |b.responses|
    decreases |b.responses| - i
  {
    i < |b.responses| ==>
      if b.responses[i].request == 0 then LegsResolve(s, cfg, b, targets, i + 1)
      else
        var leg := LegResult(b.responses[i], b.result);
        Resolves(s.desk, leg, targets[i]) && LegsResolve(RestOrder(s, cfg, leg, targets[i]), cfg, b, targets, i + 1)
  }

  predicate Enumerates(ids: seq<nat>, keys: set<nat>) {
    && (forall i :: 0 <= i < |ids| ==> ids[i] in keys)
    && (forall k :: k in keys ==> k in ids)
    && (forall i, j :: 0 <= i < j < |ids| ==> ids[i] != ids[j])
  }

  ghost predicate Enabled(s: State, cfg: RiskConfig, ev: Event) {
    match ev
    case RestArrives(r, target) => Resolves(s.desk, r, target)
    case BatchArrives(b, targets) => |targets| == |b.responses| && LegsResolve(s, cfg, b, targets, 0)
    case CancelAllOrders(ids) => Enumerates(ids, s.desk.orders.Keys)
    case ServiceIncidents(gs) => Enumerates(gs, s.groups.Keys)
    case _ => true
  }

  ghost function Step(s: State, q: Queue, cfg: RiskConfig, ev: Event): State
    requires Enabled(s, cfg, ev)
  {
    match ev
    case NewOrderArrives(o) => OnNewOrder(s, q, cfg, o)
    case CancelArrives(target) => OnCancel(s, q, target)
    case ModifyArrives(target) => OnModify(s, q, target)
    case GroupArrives(intent, now, slots) => OnGroup(s, q, cfg, intent, now, slots)
    case RestArrives(r, target) => OnRest(s, q, cfg, r, target)
    case BatchArrives(b, targets) => OnBatch(s, q, cfg, b, targets)
    case UserOrderArrives(e) => OnUserOrder(s, q, cfg, e)
    case FillArrives(e) => OnFill(s, q, cfg, e)
    case PositionArrives(v) => OnPosition(s, cfg, v)
    case SnapshotArrives(snap, now) => OnSnapshot(s, cfg, snap, now)
    case AllowTrading => OnAllow(s, cfg)
    case DisableTrading => OnDisable(s)
    case CancelAllOrders(ids) => OnCancelAll(s, q, ids)
    case ApplyUniverse(u) => OnUniverse(s, cfg, u)
    case ServiceIncidents(gs) => ServiceEach(s, q, cfg, gs)
    case PumpReconciliation(now) => MaybeReconcile(s, q, cfg, now)
  }
}
