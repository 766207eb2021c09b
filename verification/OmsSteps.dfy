/** Every step keeps the books: terminal and fill accounting, admission with its rollback, venue
    answers, reconciliation and control commands. */
module OmsSteps {
  import opened Wrappers
  import opened Sums
  import opened OmsTypes
  import opened Oms
  import opened OmsRepair
  import opened OmsMoney
  import opened OmsLedger
  import opened OmsBooks

  // ------------------------------------------------- capital leaving an order

  /** The money effect of taking `taken` off strategy `k`. */
  ghost predicate Takes(m: Money, m': Money, k: nat, taken: int) {
    && (forall j: nat :: ActiveOf(m'.portfolios, j) == ActiveOf(m.portfolios, j))
    && (forall j: nat :: ReservedOf(m'.portfolios, j) ==
          if j == k then ReservedOf(m.portfolios, j) - Min(ReservedOf(m.portfolios, j), taken)
          else ReservedOf(m.portfolios, j))
  }

  predicate ReservedReduced(grp: Group, grp': Group) { grp' == grp.(reserved := grp'.reserved) }

  lemma ReduceShape(groups: map<nat, Group>, g: nat, amount: int)
    ensures var groups' := ReduceGroup(groups, g, amount);
            && groups'.Keys == groups.Keys
            && (forall h :: h in groups ==> ReservedReduced(groups[h], groups'[h]))
            && GroupsStay(groups, groups') && ResidualsStay(groups, groups')
            && (forall h :: h in groups ==> SameRounds(groups[h], groups'[h]))
  {
  }

  /** An order gives up `taken`; its group and portfolio follow. */
  lemma BooksTaken(s: State, cfg: RiskConfig, id: nat, o': Order, taken: int, m': Money)
    requires Books(s, cfg) && id in s.desk.orders && MoneyInv(m', cfg)
    requires 0 <= taken <= s.desk.orders[id].reserved
    requires SameRole(s.desk.orders[id].(reserved := s.desk.orders[id].reserved - taken), o')
    requires Takes(s.money, m', o'.context.strategy, taken)
    ensures Books(s.(desk := WithOrder(s.desk, id, o'), groups := ReduceGroup(s.groups, o'.group, taken), money := m'),
                  cfg)
  {
    hide Structure, LedgerInv, FillsInv, MoneyInv, RoundsInv, GroupsStay, ResidualsStay, SameRounds, OrdersStay,
         ReduceGroup, ReservedReduced;
    var d' := WithOrder(s.desk, id, o');
    var groups' := ReduceGroup(s.groups, o'.group, taken);
    OrderGives(s.desk, s.groups, s.nextGroup, id, o', taken);
    ReduceShape(s.groups, o'.group, taken);
    StructureStays(s.desk, s.groups, d', groups', s.nextGroup);
    CapitalTaken(s.desk.orders, s.groups, s.money.portfolios, id, o', taken, m'.portfolios);
    FillsStay(s.groups, groups', s.trades, s.nextGroup);
    RoundsSame(s.wire.log, s.groups, groups', s.nextGroup, cfg);
  }

  lemma OrderGives(d: Desk, groups: map<nat, Group>, nextGroup: nat, id: nat, o': Order, taken: int)
    requires Structure(d, groups, nextGroup) && id in d.orders && 0 <= taken <= d.orders[id].reserved
    requires SameRole(d.orders[id].(reserved := d.orders[id].reserved - taken), o')
    ensures OrdersStay(d, WithOrder(d, id, o'), groups)
    ensures d.orders[id].repair ==> taken == 0
    ensures forall j :: j in d.orders ==> d.orders[j].reserved >= 0
  {
    forall j | j in d.orders ensures d.orders[j].reserved >= 0 { assert OrderPlaced(j, d.orders[j], groups); }
    assert OrderPlaced(id, d.orders[id], groups);
  }

  // -------------------------------------------------------- terminal accounting

  lemma TerminalMoney(m: Money, cfg: RiskConfig, k: nat, released: int)
    requires MoneyInv(m, cfg) && 0 <= released <= ReservedOf(m.portfolios, k)
    ensures var m1 := EnsurePortfolio(m, cfg, k);
            var p := PortfolioOf(m1, cfg, k);
            var m' := RecomputeAll(Store(m1, k,
                                         p.(openOrders := OneLess(p.openOrders), reserved := p.reserved - released)),
                                         cfg);
            && p.reserved == ReservedOf(m.portfolios, k)
            && MoneyInv(m', cfg) && Takes(m, m', k, released)
  {
    hide EnsurePortfolio, MoneyInv, RecomputeAll;
    EnsureInv(m, cfg, k);
    EnsureShape(m, cfg, k);
    var m1 := EnsurePortfolio(m, cfg, k);
    var p := PortfolioOf(m1, cfg, k);
    TakeInv(m1, cfg, k, released, OneLess(p.openOrders));
    RecomputeSame(Store(m1, k, p.(openOrders := OneLess(p.openOrders), reserved := p.reserved - released)), cfg);
  }

  lemma BooksTerminal(s: State, cfg: RiskConfig, id: nat)
    requires Books(s, cfg)
    ensures Books(AccountTerminal(s, cfg, id), cfg)
  {
    hide Books, EnsurePortfolio, MoneyInv, RecomputeAll, ReduceGroup, Takes, Store;
    if id in s.desk.orders && IsTerminal(s.desk.orders[id].state) && !s.desk.orders[id].accounted {
      var o := s.desk.orders[id];
      var k := o.context.strategy;
      BooksHaveMoney(s, cfg);
      BooksHaveCapital(s, cfg, id);
      var released := if o.state.Filled? || o.reserved <= 0 then 0
                      else Min(ReservedOf(s.money.portfolios, k), o.reserved);
      TerminalMoney(s.money, cfg, k, released);
      var m1 := EnsurePortfolio(s.money, cfg, k);
      var p := PortfolioOf(m1, cfg, k);
      var m' := RecomputeAll(Store(m1, k, p.(openOrders := OneLess(p.openOrders), reserved := p.reserved - released)),
                             cfg);
      BooksTaken(s, cfg, id, o.(accounted := true, reserved := o.reserved - released), released, m');
    }
  }

  lemma BooksHaveCapital(s: State, cfg: RiskConfig, id: nat)
    requires Books(s, cfg) && id in s.desk.orders
    ensures 0 <= s.desk.orders[id].reserved
    ensures 0 <= ReservedOf(s.money.portfolios, s.desk.orders[id].context.strategy)
  {
    assert OrderPlaced(id, s.desk.orders[id], s.groups);
    var k := s.desk.orders[id].context.strategy;
    if k in s.money.portfolios { NonNegativeReserved(s.money, cfg, k); }
  }

  lemma BooksHaveMoney(s: State, cfg: RiskConfig)
    requires Books(s, cfg)
    ensures MoneyInv(s.money, cfg)
  {
  }

  // ------------------------------------------------------------ fill accounting

  lemma FilledMoneyTakes(m: Money, cfg: RiskConfig, o: Order, e: Fill, released: int)
    requires MoneyInv(m, cfg) && 0 <= released
    ensures Takes(m, FilledMoney(m, cfg, o, e, released), o.context.strategy, released)
  {
    hide EnsurePortfolio, MoneyInv, RecomputeAll, FilledPosition, FillLots, YesPrice, StorePosition, Store;
    var k := o.context.strategy;
    EnsureShape(m, cfg, k);
    var m1 := EnsurePortfolio(m, cfg, k);
    var was := PositionOf(m1, k, o.market, o.context.event);
    var now := FilledPosition(was, FillLots(o, e), YesPrice(o, e), e.average);
    StorePositionSame(m1, k, PortfolioOf(m1, cfg, k), was, now);
    var m2 := StorePosition(m1, k, PortfolioOf(m1, cfg, k), was, now);
    var p := PortfolioOf(m2, cfg, k);
    StoreEffect(m2, k, p.(reserved := p.reserved - Min(p.reserved, released)));
    RecomputeSame(Store(m2, k, p.(reserved := p.reserved - Min(p.reserved, released))), cfg);
    EnsureSame(m, cfg, k);
  }

  lemma StoreEffect(m: Money, k: nat, p: Portfolio)
    ensures forall j: nat ::
              ReservedOf(Store(m, k, p).portfolios, j) == if j == k then p.reserved else ReservedOf(m.portfolios, j)
    ensures forall j: nat ::
              ActiveOf(Store(m, k, p).portfolios, j) == if j == k then p.activeGroups else ActiveOf(m.portfolios, j)
  {
  }

  lemma StorePositionSame(m: Money, k: nat, p: Portfolio, was: Position, now: Position)
    requires k in m.portfolios && p == m.portfolios[k]
    ensures var m' := StorePosition(m, k, p, was, now);
            && k in m'.portfolios && m'.portfolios[k].reserved == p.reserved
            && m'.portfolios[k].activeGroups == p.activeGroups
            && PortfoliosSame(m.portfolios, m'.portfolios)
  {
  }

  /** A new trade: the order's role is kept, and the leg it belongs to moves by its lots. */
  lemma BooksRecorded(s: State, cfg: RiskConfig, d: Desk, id: nat, e: Fill)
    requires Books(s, cfg) && OrdersStay(s.desk, d, s.groups) && OrdersSame(s.desk.orders, d.orders) && id in d.orders
    requires e.trade.Some? && e.trade.value !in s.trades
    ensures var s1 := RecordTrade(s, d, id, e);
            id in s1.desk.orders && Books(s1.(groups := FilledGroups(s.groups, s1.desk.orders[id], e)), cfg)
  {
    hide FilledGroups, FilledOrder, Contributes, LedgerInv, FillsInv, MoneyInv, RoundsInv, GroupsSame, GroupsStay,
         SameRounds, OrdersStay, OrdersSame;
    var s1 := RecordTrade(s, d, id, e);
    var o := s1.desk.orders[id];
    var groups' := FilledGroups(s.groups, o, e);
    FilledOrderRole(d.orders[id], e);
    FilledGroupsShape(s.groups, o, e);
    FilledDesk(s.desk, d, s.groups, id, o);
    assert forall g :: g in s.groups ==> 0 < g < s.nextGroup;
    StructureStays(s.desk, s.groups, s1.desk, groups', s.nextGroup);
    LedgerStays(s.desk.orders, s.groups, s.money.portfolios, s1.desk.orders, groups', s.money.portfolios);
    TradeAccounted(s.groups, s.trades, s.nextGroup, o, e, e.trade.value);
    RoundsSame(s.wire.log, s.groups, groups', s.nextGroup, cfg);
  }

  lemma FilledOrderRole(o: Order, e: Fill)
    ensures SameRole(o, FilledOrder(o, e))
  {
  }

  lemma FilledDesk(d0: Desk, d: Desk, groups: map<nat, Group>, id: nat, o: Order)
    requires OrdersStay(d0, d, groups) && OrdersSame(d0.orders, d.orders) && id in d.orders && SameRole(d.orders[id], o)
    ensures OrdersStay(d0, WithOrder(d, id, o), groups) && OrdersSame(d0.orders, WithOrder(d, id, o).orders)
  {
    forall j | j in d0.orders ensures StaysPut(d0.orders[j], WithOrder(d, id, o).orders[j]) {
      assert StaysPut(d0.orders[j], d.orders[j]);
    }
  }

  lemma FilledGroupsShape(groups: map<nat, Group>, o: Order, e: Fill)
    ensures var groups' := FilledGroups(groups, o, e);
            && groups'.Keys == groups.Keys && GroupsSame(groups, groups') && GroupsStay(groups, groups')
            && forall g :: g in groups ==> SameRounds(groups[g], groups'[g])
  {
    hide WellFormedFill, FillLots, AddResidual;
    if o.group in groups { AddResidualShape(groups[o.group], o.leg, FillLots(o, e)); }
  }

  lemma AddResidualShape(grp: Group, leg: nat, lots: int)
    ensures var grp' := AddResidual(grp, leg, lots);
            && SameRequests(grp.legs, grp'.legs) && SameRounds(grp, grp')
            && grp'.reserved == grp.reserved && grp'.released == grp.released && grp'.context == grp.context
  {
  }

  lemma BooksFill(s: State, cfg: RiskConfig, d: Desk, id: nat, e: Fill)
    requires Books(s, cfg) && OrdersStay(s.desk, d, s.groups) && OrdersSame(s.desk.orders, d.orders) && id in d.orders
    requires e.trade.Some? && e.trade.value !in s.trades
    ensures Books(AccountFill(RecordTrade(s, d, id, e), cfg, id, e), cfg)
  {
    BooksRecorded(s, cfg, d, id, e);
    var s1 := RecordTrade(s, d, id, e);
    var o := s1.desk.orders[id];
    var s2 := s1.(groups := FilledGroups(s.groups, o, e));
    assert OrderPlaced(id, o, s2.groups);
    FullNotionalIsDollarPerContract(e.quantity);
    hide Books, RecordTrade, MoneyInv, FilledMoney, ReduceGroup, FullNotional, FilledGroups, WellFormedFill,
         EnsurePortfolio;
    BooksHaveMoney(s2, cfg);
    if WellFormedFill(o, e) {
      if FillStops(s.money, o, e) {
        BooksStopped(s2, cfg, o.context.strategy, o.market, o.context.event);
      } else {
        var released := FillRelease(o, e);
        FilledMoneyInv(s1.money, cfg, o, e, released);
        FilledMoneyTakes(s1.money, cfg, o, e, released);
        BooksTaken(s2, cfg, id, o.(reserved := o.reserved - released), released,
                   FilledMoney(s1.money, cfg, o, e, released));
        BooksGate(s2.(desk := WithOrder(s2.desk, id, o.(reserved := o.reserved - released)),
                      groups := ReduceGroup(s2.groups, o.group, released),
                      money := FilledMoney(s1.money, cfg, o, e, released)), cfg,
                      s.gate.(reconcileNeeded := cfg.required));
      }
    }
  }

  lemma BooksStopped(s: State, cfg: RiskConfig, k: nat, market: nat, event: nat)
    requires Books(s, cfg)
    ensures var m := EnsurePortfolio(s.money, cfg, k);
            Books(s.(money := m.(positions := m.positions[(k, market) := PositionOf(m, k, market, event)])), cfg)
  {
    hide Books, MoneyInv, EnsurePortfolio;
    BooksHaveMoney(s, cfg);
    StoppedFillInv(s.money, cfg, k, market, event);
    EnsureSame(s.money, cfg, k);
    var m := EnsurePortfolio(s.money, cfg, k);
    BooksMoney(s, cfg, m.(positions := m.positions[(k, market) := PositionOf(m, k, market, event)]));
  }

  // ---------------------------------------------------------------- admission

  /** What the first `n` legs add to a sum over orders. */
  function LegsAdd(intent: GroupIntent, g: nat, first: nat, n: nat, f: Order -> int): int
    requires n <= |intent.orders|
  {
    if n == 0 then 0 else LegsAdd(intent, g, first, n - 1, f) + f(LegOrder(intent, g, first, n - 1))
  }

  function NotionalOf(intent: GroupIntent, n: nat): nat
    requires n <= |intent.orders|
  {
    if n == 0 then 0 else NotionalOf(intent, n - 1) + Notional(intent.orders[n - 1].quantity)
  }

  /** The first `n` legs are stored under consecutive ids. */
  predicate LegsAt(orders: map<nat, Order>, intent: GroupIntent, g: nat, first: nat, n: nat)
    requires n <= |intent.orders|
  {
    forall id: nat :: first <= id < first + n ==> id in orders && orders[id] == LegOrder(intent, g, first, id - first)
  }

  lemma {:induction false} WithLegsShape(orders: map<nat, Order>, intent: GroupIntent, g: nat, first: nat, n: nat)
    requires n <= |intent.orders| && forall id :: id in orders ==> id < first
    ensures var orders' := WithLegs(orders, intent, g, first, n);
            && (forall id :: id in orders ==> id in orders' && orders'[id] == orders[id])
            && LegsAt(orders', intent, g, first, n)
            && (forall id :: id in orders' && id !in orders ==> first <= id < first + n)
  {
    hide LegOrder;
    if n > 0 { WithLegsShape(orders, intent, g, first, n - 1); }
  }

  lemma {:induction false} WithLegsSum(orders: map<nat, Order>, intent: GroupIntent, g: nat, first: nat, n: nat,
                                       f: Order -> int)
    requires n <= |intent.orders| && forall id :: id in orders ==> id < first
    ensures Sum(WithLegs(orders, intent, g, first, n), f) == Sum(orders, f) + LegsAdd(intent, g, first, n, f)
  {
    hide Sum;
    if n == 0 {
      assert WithLegs(orders, intent, g, first, n) == orders;
    } else {
      WithLegsShape(orders, intent, g, first, n - 1);
      WithLegsSum(orders, intent, g, first, n - 1, f);
      var before := WithLegs(orders, intent, g, first, n - 1);
      var id: nat := first + n - 1;
      assert id !in before;
      SumUpdate(before, id, LegOrder(intent, g, first, n - 1), f);
    }
  }

  lemma {:induction false} LegsAddHeld(intent: GroupIntent, g: nat, first: nat, n: nat, h: nat)
    requires n <= |intent.orders|
    ensures LegsAdd(intent, g, first, n, HeldFor(h)) == if h == g then NotionalOf(intent, n) else 0
  {
    hide Notional;
    if n > 0 { LegsAddHeld(intent, g, first, n - 1, h); }
  }

  lemma {:induction false} LegsAddBy(intent: GroupIntent, g: nat, first: nat, n: nat, k: nat)
    requires n <= |intent.orders| && forall i: nat ::
               i < n ==> intent.orders[i].context.strategy == intent.context.strategy
    ensures LegsAdd(intent, g, first, n, HeldBy(k)) == if k == intent.context.strategy then NotionalOf(intent, n) else 0
  {
    hide Notional;
    if n > 0 { LegsAddBy(intent, g, first, n - 1, k); }
  }

  /** The leg loop adds up the notional of every leg, all of the group's strategy. */
  lemma {:induction false} JudgeLegsSum(universe: Option<OrderUniverse>, intent: GroupIntent, i: nat, required: nat)
    requires i <= |intent.orders| && required == NotionalOf(intent, i)
    requires JudgeLegs(universe, intent, i, required).0.None?
    ensures JudgeLegs(universe, intent, i, required).1 == NotionalOf(intent, |intent.orders|)
    ensures forall j: nat :: i <= j < |intent.orders| ==> JudgeLeg(universe, intent, j).None?
    decreases |intent.orders| - i
  {
    hide FullNotional, JudgeLeg;
    if i < |intent.orders| {
      var notional := FullNotional(intent.orders[i].quantity);
      JudgeLegsSum(universe, intent, i + 1, required + notional.value);
    }
  }

  /** An admitted intent needs exactly the notional of its legs, which share its strategy. */
  lemma AdmittedShape(s: State, cfg: RiskConfig, intent: GroupIntent, now: nat, slots: Option<int>)
    requires JudgeGroup(s, cfg, intent, now, slots).0.None?
    ensures JudgeGroup(s, cfg, intent, now, slots).1 == NotionalOf(intent, |intent.orders|)
    ensures forall i: nat :: i < |intent.orders| ==> intent.orders[i].context.strategy == intent.context.strategy
  {
    hide JudgeEnvelope, LegShape, TimestampChain, RouteOf, RepeatsEarlier, JudgeLegs;
    JudgeLegsSum(s.gate.universe, intent, 0, 0);
    forall i: nat | i < |intent.orders| ensures intent.orders[i].context.strategy == intent.context.strategy {
      assert JudgeLeg(s.gate.universe, intent, i).None?;
    }
  }

  lemma FundedStays(orders: map<nat, Order>, groups: map<nat, Group>, intent: GroupIntent, g: nat, first: nat,
                    grp: Group, h: nat)
    requires AllFunded(orders, groups) && g !in groups
    requires (forall id :: id in orders ==> id < first && orders[id].group != g)
    requires !grp.released && grp.context == intent.context && grp.reserved == NotionalOf(intent, |intent.orders|)
    requires h in groups[g := grp]
    ensures Funded(WithLegs(orders, intent, g, first, |intent.orders|), h, groups[g := grp][h])
  {
    hide Sum, WithLegs, LegsAdd, NotionalOf;
    WithLegsSum(orders, intent, g, first, |intent.orders|, HeldFor(h));
    LegsAddHeld(intent, g, first, |intent.orders|, h);
    if h == g { SumZero(orders, HeldFor(g)); } else { assert Funded(orders, h, groups[h]); }
  }

  lemma GroupFunded(orders: map<nat, Order>, groups: map<nat, Group>, portfolios: map<nat, Portfolio>,
                    intent: GroupIntent,
                    g: nat, first: nat, grp: Group, portfolios': map<nat, Portfolio>)
    requires LedgerInv(orders, groups, portfolios) && g !in groups
    requires (forall id :: id in orders ==> id < first && orders[id].group != g)
    requires forall i: nat :: i < |intent.orders| ==> intent.orders[i].context.strategy == intent.context.strategy
    requires !grp.released && grp.context == intent.context && grp.reserved == NotionalOf(intent, |intent.orders|)
    requires forall k: nat ::
               ReservedOf(portfolios', k) ==
               ReservedOf(portfolios, k) + (if k == intent.context.strategy then grp.reserved else 0)
    requires forall k: nat ::
               ActiveOf(portfolios', k) == ActiveOf(portfolios, k) + (if k == intent.context.strategy then 1 else 0)
    ensures LedgerInv(WithLegs(orders, intent, g, first, |intent.orders|), groups[g := grp], portfolios')
  {
    hide Sum, WithLegs, LegsAdd, NotionalOf, Funded;
    var n := |intent.orders|;
    var orders' := WithLegs(orders, intent, g, first, n);
    var groups' := groups[g := grp];
    forall h | h in groups' ensures Funded(orders', h, groups'[h]) {
      FundedStays(orders, groups, intent, g, first, grp, h);
    }
    forall k: nat ensures Covered(orders', portfolios', k) {
      assert Covered(orders, portfolios, k);
      WithLegsSum(orders, intent, g, first, n, HeldBy(k));
      LegsAddBy(intent, g, first, n, k);
    }
    forall k: nat ensures Counted(groups', portfolios', k) {
      assert Counted(groups, portfolios, k);
      SumUpdate(groups, g, grp, ActiveIn(k));
    }
  }

  lemma AdmittedStructure(d: Desk, groups: map<nat, Group>, g: nat, intent: GroupIntent, first: nat, grp: Group)
    requires Structure(d, groups, g) && d.nextRequest <= first
    requires grp.legs == FreshGroup(intent, first, grp.reserved).legs
    ensures Structure(Desk(WithLegs(d.orders, intent, g, first, |intent.orders|), d.byExchange,
                           first + |intent.orders|), groups[g := grp], g + 1)
  {
    hide WithLegs, LegOrder, FreshGroup, LegsPlaced, OrderPlaced;
    var n := |intent.orders|;
    var orders' := WithLegs(d.orders, intent, g, first, n);
    var groups' := groups[g := grp];
    WithLegsShape(d.orders, intent, g, first, n);
    forall h | h in groups' ensures 0 < h < g + 1 && LegsPlaced(orders', h, groups'[h].legs) {
      if h == g {
        FreshLegsPlaced(orders', intent, g, first, grp);
      } else {
        LegsStayPlaced(d.orders, orders', h, groups[h].legs);
      }
    }
    forall id | id in orders' ensures 0 < id && OrderPlaced(id, orders'[id], groups') {
      if id in d.orders {
        OrderStaysPlaced(id, d.orders[id], groups, g, grp);
      } else {
        FreshOrderPlaced(intent, g, first, grp, id, groups');
      }
    }
  }

  lemma FreshLegsPlaced(orders: map<nat, Order>, intent: GroupIntent, g: nat, first: nat, grp: Group)
    requires grp.legs == FreshGroup(intent, first, grp.reserved).legs
    requires LegsAt(orders, intent, g, first, |intent.orders|)
    ensures LegsPlaced(orders, g, grp.legs)
  {
    hide Notional;
    forall i | 0 <= i < |grp.legs| ensures LegPlaced(orders, g, i, grp.legs[i]) {
      assert grp.legs[i] == Leg(first + i, 0, 0);
    }
  }

  lemma LegsStayPlaced(orders: map<nat, Order>, orders': map<nat, Order>, h: nat, legs: seq<Leg>)
    requires LegsPlaced(orders, h, legs) && forall id :: id in orders ==> id in orders' && orders'[id] == orders[id]
    ensures LegsPlaced(orders', h, legs)
  {
    forall i | 0 <= i < |legs| ensures LegPlaced(orders', h, i, legs[i]) { assert LegPlaced(orders, h, i, legs[i]); }
  }

  lemma OrderStaysPlaced(id: nat, o: Order, groups: map<nat, Group>, g: nat, grp: Group)
    requires OrderPlaced(id, o, groups) && g !in groups
    ensures OrderPlaced(id, o, groups[g := grp])
  {
  }

  lemma FreshOrderPlaced(intent: GroupIntent, g: nat, first: nat, grp: Group, id: nat, groups: map<nat, Group>)
    requires first <= id < first + |intent.orders| && g in groups && groups[g] == grp
    requires grp.legs == FreshGroup(intent, first, grp.reserved).legs
    ensures OrderPlaced(id, LegOrder(intent, g, first, id - first), groups)
  {
    hide Notional;
    assert grp.legs[id - first] == Leg(id, 0, 0);
  }

  /** What a granted reservation does to reserved capital and group counts. */
  lemma ReserveEffect(m: Money, cfg: RiskConfig, k: nat, amount: nat)
    ensures var (m', ok) := Reserve(m, cfg, k, amount);
            && (!ok ==> PortfoliosSame(m.portfolios, m'.portfolios))
            && (ok ==> forall j: nat ::
                  ReservedOf(m'.portfolios, j) == ReservedOf(m.portfolios, j) + (if j == k then amount else 0))
            && (ok ==> forall j: nat ::
                  ActiveOf(m'.portfolios, j) == ActiveOf(m.portfolios, j) + (if j == k then 1 else 0))
  {
    hide EnsurePortfolio, StoreOne;
    EnsureSame(m, cfg, k);
    EnsureShape(m, cfg, k);
    var m1 := EnsurePortfolio(m, cfg, k);
    var p := PortfolioOf(m1, cfg, k);
    StoreOneShape(m1, cfg, k, p.(reserved := p.reserved + amount, activeGroups := p.activeGroups + 1));
  }

  /** A rolled-back admission restores reserved capital and group counts exactly. */
  lemma RollbackExact(m: Money, cfg: RiskConfig, k: nat, amount: nat, grp: Group)
    requires ValidRisk(cfg) && MoneyInv(m, cfg) && Reserve(m, cfg, k, amount).1
    requires grp.context.strategy == k && grp.reserved == amount
    ensures PortfoliosSame(m.portfolios, ReleaseMoney(Reserve(m, cfg, k, amount).0, cfg, grp).portfolios)
  {
    if k in m.portfolios { NonNegativeReserved(m, cfg, k); }
    hide MoneyInv, Reserve, ReleaseMoney;
    ReserveInv(m, cfg, k, amount);
    ReserveEffect(m, cfg, k, amount);
    ReleaseEffect(Reserve(m, cfg, k, amount).0, cfg, grp);
  }

  lemma FreshGroupFacts(intent: GroupIntent, first: nat, required: nat)
    ensures var grp := FreshGroup(intent, first, required);
            && grp.context == intent.context && grp.reserved == required && !grp.released && !grp.overflowed
            && !grp.uncertain
            && |grp.legs| == |intent.orders| && grp.cancelRounds == grp.submitRounds == grp.repairRounds == 0
            && (forall i :: 0 <= i < |grp.legs| ==> grp.legs[i].residual == 0)
  {
  }

  lemma FreshAccounted(groups: map<nat, Group>, trades: map<nat, Contribution>, g: nat, grp: Group)
    requires FillsInv(groups, trades, g) && !grp.overflowed && forall i ::
               0 <= i < |grp.legs| ==> grp.legs[i].residual == 0
    ensures FillsInv(groups[g := grp], trades, g + 1)
  {
    hide Sum;
    forall i: nat | i < |grp.legs| ensures LegAccounted(trades, g, grp, i) {
      SumZero(trades, ToLeg(g, i));
    }
    var groups' := groups[g := grp];
    forall h | h in groups' ensures GroupAccounted(trades, h, groups'[h]) {
      if h != g { assert GroupAccounted(trades, h, groups[h]); }
    }
  }

  lemma FreshRounds(log: seq<Command>, groups: map<nat, Group>, g: nat, grp: Group, cfg: RiskConfig)
    requires RoundsInv(log, groups, g, cfg) && grp.cancelRounds == grp.submitRounds == grp.repairRounds == 0
    ensures RoundsInv(log, groups[g := grp], g + 1, cfg)
  {
    hide Count;
    assert Untouched(log, g);
    var groups' := groups[g := grp];
    forall h | h in groups' ensures RoundsKept(log, h, groups'[h], cfg) {
      if h != g { assert RoundsKept(log, h, groups[h], cfg); }
    }
  }

  /** A group id not handed out yet belongs to no order. */
  lemma NoOrderOf(s: State, cfg: RiskConfig)
    requires Books(s, cfg)
    ensures forall id :: id in s.desk.orders ==> id < s.desk.nextRequest && s.desk.orders[id].group != s.nextGroup
  {
    forall id | id in s.desk.orders ensures s.desk.orders[id].group != s.nextGroup {
      assert OrderPlaced(id, s.desk.orders[id], s.groups);
    }
  }

  /** Ids may be used up. */
  lemma BooksIds(s: State, cfg: RiskConfig, nextRequest: nat, nextGroup: nat)
    requires Books(s, cfg) && s.desk.nextRequest <= nextRequest && s.nextGroup <= nextGroup
    ensures Books(s.(desk := s.desk.(nextRequest := nextRequest), nextGroup := nextGroup), cfg)
  {
    hide LedgerInv, MoneyInv, RoundsKept, GroupAccounted, LegsPlaced, OrderPlaced;
  }

  /** The books once the batch of an admitted group is on the wire. */
  lemma BooksAdmitted(s: State, cfg: RiskConfig, intent: GroupIntent, m: Money, w: Wire, grp: Group)
    requires Books(s, cfg) && MoneyInv(m, cfg) && Emits(s.wire, w, NoRepair)
    requires forall i: nat :: i < |intent.orders| ==> intent.orders[i].context.strategy == intent.context.strategy
    requires var first := s.desk.nextRequest + 1;
             grp == FreshGroup(intent, first, NotionalOf(intent, |intent.orders|)).(state := grp.state)
    requires forall j: nat ::
               ReservedOf(m.portfolios, j) ==
               ReservedOf(s.money.portfolios, j) + (if j == intent.context.strategy then grp.reserved else 0)
    requires forall j: nat ::
               ActiveOf(m.portfolios, j) ==
               ActiveOf(s.money.portfolios, j) + (if j == intent.context.strategy then 1 else 0)
    ensures var first := s.desk.nextRequest + 1;
            var g := s.nextGroup;
            Books(s.(desk :=
                Desk(WithLegs(s.desk.orders, intent, g, first, |intent.orders|), s.desk.byExchange,
                     first + |intent.orders|),
                     groups := s.groups[g := grp], nextGroup := g + 1, wire := w, money := m), cfg)
  {
    hide FreshGroup, WithLegs, LedgerInv, FillsInv, RoundsInv, MoneyInv, Emits, NotionalOf, Structure;
    var first := s.desk.nextRequest + 1;
    var g := s.nextGroup;
    FreshGroupFacts(intent, first, NotionalOf(intent, |intent.orders|));
    NoOrderOf(s, cfg);
    BooksHaveIds(s, cfg);
    AdmittedStructure(s.desk, s.groups, g, intent, first, grp);
    GroupFunded(s.desk.orders, s.groups, s.money.portfolios, intent, g, first, grp, m.portfolios);
    FreshAccounted(s.groups, s.trades, g, grp);
    RoundsUnrelated(s.wire, w, s.groups, g, cfg);
    FreshRounds(w.log, s.groups, g, grp, cfg);
  }

  lemma BooksHaveIds(s: State, cfg: RiskConfig)
    requires Books(s, cfg)
    ensures 0 < s.nextGroup && 0 < s.desk.nextRequest && IdsBelow(s.desk)
    ensures forall g :: g in s.groups ==> 0 < g < s.nextGroup
  {
  }

  /** Commands that repair nothing change nothing in the books. */
  lemma BooksWire(s: State, cfg: RiskConfig, w: Wire)
    requires Books(s, cfg) && Emits(s.wire, w, NoRepair)
    ensures Books(s.(wire := w), cfg)
  {
    hide Structure, LedgerInv, FillsInv, RoundsInv, MoneyInv, Emits;
    BooksHaveIds(s, cfg);
    RoundsUnrelated(s.wire, w, s.groups, s.nextGroup, cfg);
  }

  lemma BooksGroupIntent(s: State, q: Queue, cfg: RiskConfig, intent: GroupIntent, now: nat, slots: Option<int>)
    requires ValidRisk(cfg) && Books(s, cfg)
    ensures Books(OnGroup(s, q, cfg, intent, now, slots), cfg)
  {
    hide Books, JudgeGroup, Reserve, AdmitGroup, PortfoliosSame, NotionalOf;
    var (reason, required) := JudgeGroup(s, cfg, intent, now, slots);
    if reason.None? {
      AdmittedShape(s, cfg, intent, now, slots);
      var (m, ok) := Reserve(s.money, cfg, intent.context.strategy, required);
      BooksHaveMoney(s, cfg);
      ReserveInv(s.money, cfg, intent.context.strategy, required);
      ReserveEffect(s.money, cfg, intent.context.strategy, required);
      if ok {
        BooksAdmission(s, q, cfg, intent, required);
      } else {
        BooksMoney(s, cfg, m);
        BooksIds(s.(money := m), cfg, s.desk.nextRequest + 1 + |intent.orders|, s.nextGroup + 1);
      }
    }
  }

  lemma BooksAdmission(s: State, q: Queue, cfg: RiskConfig, intent: GroupIntent, required: nat)
    requires ValidRisk(cfg) && Books(s, cfg) && Reserve(s.money, cfg, intent.context.strategy, required).1
    requires required == NotionalOf(intent, |intent.orders|)
    requires forall i: nat :: i < |intent.orders| ==> intent.orders[i].context.strategy == intent.context.strategy
    ensures var (g, batch, first) := (s.nextGroup, s.desk.nextRequest, s.desk.nextRequest + 1);
            var m := Reserve(s.money, cfg, intent.context.strategy, required).0;
            Books(AdmitGroup(s.(nextGroup := g + 1, desk := s.desk.(nextRequest := first + |intent.orders|),
                                money := m),
                             q, cfg, intent, g, batch, first, required), cfg)
  {
    hide Books, Reserve, NotionalOf, MoneyInv, ReleaseMoney, OpenOrders, WithLegs, FreshGroup, PortfoliosSame, Emits;
    var (g, batch, first, k) := (s.nextGroup, s.desk.nextRequest, s.desk.nextRequest + 1, intent.context.strategy);
    var m := Reserve(s.money, cfg, k, required).0;
    var grp := FreshGroup(intent, first, required);
    var cmd := SubmitBatch(batch, g, LegCommands(intent, first));
    FreshGroupFacts(intent, first, required);
    BooksHaveMoney(s, cfg);
    ReserveInv(s.money, cfg, k, required);
    SendEmits(s.wire, q, cmd, NoRepair);
    var (w, ok) := Send(s.wire, q, cmd);
    if ok {
      ReserveEffect(s.money, cfg, k, required);
      BooksAdmitted(s, cfg, intent, m, w, grp.(state := PendingVenue));
      BooksOpened(s.(desk :=
          Desk(WithLegs(s.desk.orders, intent, g, first, |intent.orders|), s.desk.byExchange, first + |intent.orders|),
                     groups := s.groups[g := grp.(state := PendingVenue)], nextGroup := g + 1, wire := w, money := m),
                     cfg, k, |intent.orders|);
      BooksIntents(s.(desk :=
          Desk(WithLegs(s.desk.orders, intent, g, first, |intent.orders|), s.desk.byExchange, first + |intent.orders|),
                      groups := s.groups[g := grp.(state := PendingVenue)], nextGroup := g + 1, wire := w,
                      money := OpenOrders(m, cfg, k, |intent.orders|)), cfg,
                      s.byIntent[(k, intent.context.groupIntent) := g]);
    } else {
      RollbackExact(s.money, cfg, k, required, grp);
      ReleaseMoneyInv(m, cfg, grp);
      BooksMoney(s, cfg, ReleaseMoney(m, cfg, grp));
      BooksIds(s.(money := ReleaseMoney(m, cfg, grp)), cfg, first + |intent.orders|, g + 1);
      BooksWire(s.(money := ReleaseMoney(m, cfg, grp), desk := s.desk.(nextRequest := first + |intent.orders|),
                   nextGroup := g + 1), cfg, w);
    }
  }

  lemma BooksIntents(s: State, cfg: RiskConfig, byIntent: map<(nat, nat), nat>)
    requires Books(s, cfg)
    ensures Books(s.(byIntent := byIntent), cfg)
  {
    hide Structure, LedgerInv, FillsInv, RoundsInv, MoneyInv;
  }
}
