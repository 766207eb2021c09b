/** The handlers of the order management system, one by one, and the theorem that every step
    keeps the books. */
module OmsHandlers {
  import opened Wrappers
  import opened Sums
  import opened OmsTypes
  import opened Oms
  import opened OmsRepair
  import opened OmsMoney
  import opened OmsLedger
  import opened OmsBooks
  import opened OmsSteps

  // ------------------------------------------------------------- single orders

  /** Money that reserves `amount` more (or less) for strategy `k`. */
  ghost predicate Shifted(m: Money, m': Money, k: nat, amount: int) {
    && (forall j: nat :: ActiveOf(m'.portfolios, j) == ActiveOf(m.portfolios, j))
    && (forall j: nat :: ReservedOf(m'.portfolios, j) == ReservedOf(m.portfolios, j) + if j == k then amount else 0)
  }

  lemma StoreReserved(m: Money, cfg: RiskConfig, k: nat, reserved: int)
    requires MoneyInv(m, cfg) && k in m.portfolios && 0 <= reserved <= Max(0, cfg.limit)
    ensures var m' := RecomputeAll(Store(m, k, m.portfolios[k].(reserved := reserved)), cfg);
            && MoneyInv(m', cfg) && Shifted(m, m', k, reserved - m.portfolios[k].reserved)
            && k in m'.portfolios && m'.portfolios[k].reserved == reserved
  {
    hide MoneyInv, RecomputeAll, Store, OwnFresh, TotalsAre, Sound;
    Standing(m, cfg, k);
    MoneyIsSound(m, cfg);
    var p := m.portfolios[k].(reserved := reserved);
    SameTotals(m.positions, k, m.portfolios[k], p);
    StoreAllInv(m, cfg, k, p);
    StoreEffect(m, k, p);
    RecomputeSame(Store(m, k, p), cfg);
    StoreAt(m, k, p);
    RecomputeKeeps(Store(m, k, p), cfg, k);
  }

  lemma StoreAt(m: Money, k: nat, p: Portfolio)
    ensures k in Store(m, k, p).portfolios && Store(m, k, p).portfolios[k] == p
  {
  }

  lemma RecomputeKeeps(m: Money, cfg: RiskConfig, k: nat)
    requires k in m.portfolios
    ensures k in RecomputeAll(m, cfg).portfolios
    ensures RecomputeAll(m, cfg).portfolios[k].reserved == m.portfolios[k].reserved
  {
    hide Available, GlobalReserved;
  }

  /** A capital-holding order of no group. */
  lemma BooksSingle(s: State, cfg: RiskConfig, o: Order, m: Money, w: Wire)
    requires Books(s, cfg) && o.group == 0 && !o.repair && 0 <= o.reserved
    requires MoneyInv(m, cfg) && Shifted(s.money, m, o.context.strategy, o.reserved) && Emits(s.wire, w, NoRepair)
    ensures Books(s.(desk := Desk(s.desk.orders[s.desk.nextRequest := o], s.desk.byExchange, s.desk.nextRequest + 1),
                     money := m, wire := w), cfg)
  {
    hide Structure, LedgerInv, FillsInv, RoundsInv, MoneyInv, Emits;
    var id := s.desk.nextRequest;
    var d' := Desk(s.desk.orders[id := o], s.desk.byExchange, id + 1);
    BooksHaveIds(s, cfg);
    SingleStructure(s.desk, s.groups, s.nextGroup, o);
    SingleReserved(s.desk.orders, s.groups, s.money.portfolios, id, o, m.portfolios);
    RoundsUnrelated(s.wire, w, s.groups, s.nextGroup, cfg);
  }

  lemma SingleStructure(d: Desk, groups: map<nat, Group>, nextGroup: nat, o: Order)
    requires Structure(d, groups, nextGroup) && o.group == 0 && !o.repair && 0 <= o.reserved
    ensures Structure(Desk(d.orders[d.nextRequest := o], d.byExchange, d.nextRequest + 1), groups, nextGroup)
  {
    var orders' := d.orders[d.nextRequest := o];
    forall g | g in groups ensures LegsPlaced(orders', g, groups[g].legs) {
      LegsStayPlaced(d.orders, orders', g, groups[g].legs);
    }
    forall id | id in orders' ensures 0 < id && OrderPlaced(id, orders'[id], groups) {
      if id != d.nextRequest { assert OrderPlaced(id, d.orders[id], groups); }
    }
  }

  lemma BooksNewOrder(s: State, q: Queue, cfg: RiskConfig, o: NewOrder)
    requires ValidRisk(cfg) && Books(s, cfg)
    ensures Books(OnNewOrder(s, q, cfg, o), cfg)
  {
    hide Books, MoneyInv, EnsurePortfolio, JudgeNewOrder, RecomputeAll, Store, PortfoliosSame, FullNotional;
    var id := s.desk.nextRequest;
    var d := s.desk.(nextRequest := id + 1);
    BooksIds(s, cfg, id + 1, s.nextGroup);
    if JudgeNewOrder(s, cfg, o).None? && FullNotional(o.quantity).Some? {
      var k := o.context.strategy;
      var m := EnsurePortfolio(s.money, cfg, k);
      BooksHaveMoney(s, cfg);
      EnsureInv(s.money, cfg, k);
      EnsureShape(s.money, cfg, k);
      EnsureSame(s.money, cfg, k);
      BooksMoney(s, cfg, m);
      BooksIds(s.(money := m), cfg, id + 1, s.nextGroup);
      if PortfolioOf(m, cfg, k).available >= FullNotional(o.quantity).value {
        BooksOrderSent(s.(money := m), q, cfg, o, FullNotional(o.quantity).value);
        FullNotionalIsDollarPerContract(o.quantity);
      }
    }
  }

  /** The part of a new order after capital was found for it. */
  ghost function OrderSent(s: State, q: Queue, cfg: RiskConfig, o: NewOrder, amount: nat): State {
    var id := s.desk.nextRequest;
    var d := s.desk.(nextRequest := id + 1);
    var k := o.context.strategy;
    var p := PortfolioOf(s.money, cfg, k);
    var m1 := RecomputeAll(Store(s.money, k, p.(reserved := p.reserved + amount)), cfg);
    var (w, ok) := Send(s.wire, q, Submit(id, o, false, 0));
    var p1 := PortfolioOf(m1, cfg, k);
    if !ok then s.(desk := d, wire := w,
                   money := RecomputeAll(Store(m1, k, p1.(reserved := p1.reserved - amount)), cfg))
    else s.(desk := WithOrder(d, id, FreshOrder(o, 0, UnknownCommand, 0, 0, amount)), wire := w,
            money := OpenOrders(m1, cfg, k, 1))
  }

  lemma BooksOrderSent(s: State, q: Queue, cfg: RiskConfig, o: NewOrder, amount: nat)
    requires ValidRisk(cfg) && Books(s, cfg) && o.context.strategy in s.money.portfolios
    requires amount <= PortfolioOf(s.money, cfg, o.context.strategy).available
    ensures Books(OrderSent(s, q, cfg, o, amount), cfg)
  {
    hide Books, MoneyInv, RecomputeAll, Store, PortfoliosSame, OpenOrders, Emits, OwnFresh;
    var id := s.desk.nextRequest;
    var k := o.context.strategy;
    var p := s.money.portfolios[k];
    BooksHaveMoney(s, cfg);
    assert 0 <= p.reserved + amount <= Max(0, cfg.limit) && 0 <= p.reserved <= Max(0, cfg.limit) by {
      FitsAnyway(s.money, cfg, k, amount);
    }
    StoreReserved(s.money, cfg, k, p.reserved + amount);
    var m1 := RecomputeAll(Store(s.money, k, p.(reserved := p.reserved + amount)), cfg);
    var cmd := Submit(id, o, false, 0);
    SendEmits(s.wire, q, cmd, NoRepair);
    var (w, ok) := Send(s.wire, q, cmd);
    if ok {
      var rec := FreshOrder(o, 0, UnknownCommand, 0, 0, amount);
      BooksSingle(s, cfg, rec, m1, w);
      BooksOpened(s.(desk := Desk(s.desk.orders[id := rec], s.desk.byExchange, id + 1), money := m1, wire := w), cfg,
                  k, 1);
    } else {
      StoreReserved(m1, cfg, k, p.reserved);
      var m2 := RecomputeAll(Store(m1, k, m1.portfolios[k].(reserved := p.reserved)), cfg);
      BackAgain(s.money, m1, m2, k, amount);
      BooksMoney(s, cfg, m2);
      BooksIds(s.(money := m2), cfg, id + 1, s.nextGroup);
      BooksWire(s.(money := m2, desk := s.desk.(nextRequest := id + 1)), cfg, w);
    }
  }

  lemma FitsAnyway(m: Money, cfg: RiskConfig, k: nat, amount: nat)
    requires ValidRisk(cfg) && MoneyInv(m, cfg) && k in m.portfolios && amount <= m.portfolios[k].available
    ensures 0 <= m.portfolios[k].reserved && m.portfolios[k].reserved + amount <= Max(0, cfg.limit)
  {
    Standing(m, cfg, k);
    if amount > 0 { AvailableFits(cfg, m.reconciled, m.portfolios[k], amount); }
  }

  lemma BackAgain(m: Money, m1: Money, m2: Money, k: nat, amount: int)
    requires Shifted(m, m1, k, amount) && Shifted(m1, m2, k, -amount)
    ensures PortfoliosSame(m.portfolios, m2.portfolios)
  {
  }

  // ------------------------------------------------- orders that keep their role

  /** The desk changed one order without touching its role. */
  lemma RoleKept(d: Desk, groups: map<nat, Group>, nextGroup: nat, id: nat, o': Order, byExchange: map<nat, nat>,
                 nextRequest: nat)
    requires Structure(d, groups, nextGroup) && id in d.orders && SameRole(d.orders[id], o')
    requires d.nextRequest <= nextRequest
    ensures OrdersStay(d, Desk(d.orders[id := o'], byExchange, nextRequest), groups)
    ensures OrdersSame(d.orders, d.orders[id := o'])
  {
    forall j | j in d.orders ensures d.orders[j].reserved >= 0 { assert OrderPlaced(j, d.orders[j], groups); }
  }

  lemma NothingEmitted(w: Wire)
    ensures Emits(w, w, NoRepair)
  {
  }

  lemma BooksRole(s: State, cfg: RiskConfig, id: nat, o': Order, byExchange: map<nat, nat>, nextRequest: nat, w: Wire)
    requires Books(s, cfg) && id in s.desk.orders && SameRole(s.desk.orders[id], o')
    requires s.desk.nextRequest <= nextRequest
    requires Emits(s.wire, w, NoRepair)
    ensures Books(s.(desk := Desk(s.desk.orders[id := o'], byExchange, nextRequest), wire := w), cfg)
  {
    RoleKept(s.desk, s.groups, s.nextGroup, id, o', byExchange, nextRequest);
    hide Books, Emits;
    BooksDesk(s, cfg, Desk(s.desk.orders[id := o'], byExchange, nextRequest), w);
  }

  lemma CancelNoRepair(w: Wire, w': Wire)
    ensures Emits(w, w', IsCancelOf(0)) ==> Emits(w, w', NoRepair)
  {
  }

  lemma BooksCancelEach(s: State, q: Queue, cfg: RiskConfig, ids: seq<nat>)
    requires Books(s, cfg)
    ensures var (d, w, _) := CancelEach(s.desk, s.wire, q, ids, 0); Books(s.(desk := d, wire := w), cfg)
  {
    hide CancelEach, Emits;
    BooksHaveIds(s, cfg);
    CancelEachFacts(s.desk, s.wire, q, ids, 0);
    var (d, w, _) := CancelEach(s.desk, s.wire, q, ids, 0);
    CancelNoRepair(s.wire, w);
    SameKeysStay(s.desk, d, s.groups, s.nextGroup);
    hide Books, DeskGrows;
    BooksDesk(s, cfg, d, w);
  }

  lemma SameKeysStay(d: Desk, d': Desk, groups: map<nat, Group>, nextGroup: nat)
    requires Structure(d, groups, nextGroup) && DeskGrows(d, d', 0) && d'.orders.Keys == d.orders.Keys
    ensures OrdersStay(d, d', groups) && OrdersSame(d.orders, d'.orders)
  {
    forall id | id in d.orders ensures StaysPut(d.orders[id], d'.orders[id]) {
      assert OrderPlaced(id, d.orders[id], groups) && SameRole(d.orders[id], d'.orders[id]);
    }
  }

  lemma BooksCancel(s: State, q: Queue, cfg: RiskConfig, target: nat)
    requires Books(s, cfg)
    ensures Books(OnCancel(s, q, target), cfg)
  {
    hide EmitCancel, Emits;
    BooksHaveIds(s, cfg);
    EmitCancelFacts(s.desk, s.wire, q, target, 0);
    var (d, w, _) := EmitCancel(s.desk, s.wire, q, target, 0);
    CancelNoRepair(s.wire, w);
    SameKeysStay(s.desk, d, s.groups, s.nextGroup);
    hide Books, DeskGrows;
    BooksDesk(s, cfg, d, w);
  }

  lemma BooksModify(s: State, q: Queue, cfg: RiskConfig, target: nat)
    requires Books(s, cfg)
    ensures Books(OnModify(s, q, target), cfg)
  {
    hide Books, Emits;
    var id := s.desk.nextRequest;
    BooksIds(s, cfg, id + 1, s.nextGroup);
    if !s.gate.incident && target in s.desk.orders {
      var (w, ok) := Send(s.wire, q, Modify(id, target));
      SendEmits(s.wire, q, Modify(id, target), NoRepair);
      if ok {
        var o := s.desk.orders[target];
        BooksRole(s, cfg, target,
                  o.(previous := o.state, state := PendingModify, pending := id, pendingKind := ModifyOrder),
                  s.desk.byExchange, id + 1, w);
      } else {
        BooksWire(s.(desk := s.desk.(nextRequest := id + 1)), cfg, w);
      }
    }
  }

  // ------------------------------------------------------------- venue answers

  lemma AnsweredRole(o: Order, kind: CommandKind, result: ResultCode)
    ensures SameRole(o, Answered(o, kind, result))
  {
  }

  lemma BooksRestOrder(s: State, cfg: RiskConfig, r: RestResponse, target: Option<nat>)
    requires Books(s, cfg)
    ensures Books(RestOrder(s, cfg, r, target), cfg)
  {
    hide Books, Emits, AccountTerminal, Answered;
    if target.Some? && target.value in s.desk.orders {
      var id := target.value;
      var d := Linked(s.desk, id, r.exchange);
      var o := Answered(d.orders[id], r.kind, r.result);
      AnsweredRole(d.orders[id], r.kind, r.result);
      NothingEmitted(s.wire);
      BooksRole(s, cfg, id, o, d.byExchange, d.nextRequest, s.wire);
      assert WithOrder(d, id, o).orders == s.desk.orders[id := o];
      BooksTerminal(s.(desk := WithOrder(d, id, o)), cfg, id);
    }
  }

  lemma BooksRest(s: State, q: Queue, cfg: RiskConfig, r: RestResponse, target: Option<nat>)
    requires Books(s, cfg)
    ensures Books(OnRest(s, q, cfg, r, target), cfg)
  {
    hide Books, RestOrder, UpdateGroup;
    if target.Some? {
      BooksRestOrder(s, cfg, r, target);
      BooksUpdate(RestOrder(s, cfg, r, target), q, cfg, target.value);
    }
  }

  lemma {:induction false} BooksRestLegs(s: State, cfg: RiskConfig, b: BatchResponse, targets: seq<Option<nat>>, i: nat)
    requires Books(s, cfg) && |targets| == |b.responses|
    ensures Books(RestLegs(s, cfg, b, targets, i), cfg)
    decreases |b.responses| - i
  {
    hide Books, RestOrder;
    if i < |b.responses| {
      if b.responses[i].request == 0 {
        BooksRestLegs(s, cfg, b, targets, i + 1);
      } else {
        BooksRestOrder(s, cfg, LegResult(b.responses[i], b.result), targets[i]);
        BooksRestLegs(RestOrder(s, cfg, LegResult(b.responses[i], b.result), targets[i]), cfg, b, targets, i + 1);
      }
    }
  }

  lemma BooksBatch(s: State, q: Queue, cfg: RiskConfig, b: BatchResponse, targets: seq<Option<nat>>)
    requires Books(s, cfg) && |targets| == |b.responses|
    ensures Books(OnBatch(s, q, cfg, b, targets), cfg)
  {
    hide Books, RestLegs, BeginRepair, UpdateGroup;
    BooksRestLegs(s, cfg, b, targets, 0);
    var s1 := RestLegs(s, cfg, b, targets, 0);
    if b.group in s1.groups && s1.groups[b.group].legs != [] {
      var grp := s1.groups[b.group];
      BooksBegin(s1, q, cfg, b.group, grp.(uncertain := true), VenueStateUncertain);
      BooksUpdate(s1, q, cfg, grp.legs[0].request);
    }
  }

  lemma BooksUserOrder(s: State, q: Queue, cfg: RiskConfig, e: UserOrder)
    requires Books(s, cfg)
    ensures Books(OnUserOrder(s, q, cfg, e), cfg)
  {
    hide Books, Emits, AccountTerminal, UpdateGroup;
    var found := FindRecord(s.desk, e.client, e.exchange);
    if found.Some? {
      var id := found.value;
      var d := Linked(s.desk, id, e.exchange);
      var o := UserOrderApplied(d.orders[id], e);
      NothingEmitted(s.wire);
      BooksRole(s, cfg, id, o, d.byExchange, d.nextRequest, s.wire);
      assert WithOrder(d, id, o).orders == s.desk.orders[id := o];
      BooksTerminal(s.(desk := WithOrder(d, id, o)), cfg, id);
      BooksUpdate(AccountTerminal(s.(desk := WithOrder(d, id, o)), cfg, id), q, cfg, id);
    }
  }

  lemma LinkedStays(s: State, cfg: RiskConfig, id: nat, exchange: nat)
    requires Books(s, cfg) && id in s.desk.orders
    ensures var d := Linked(s.desk, id, exchange);
            OrdersStay(s.desk, d, s.groups) && OrdersSame(s.desk.orders, d.orders) && id in d.orders
  {
    var o := s.desk.orders[id];
    RoleKept(s.desk, s.groups, s.nextGroup, id, o.(exchange := exchange), s.desk.byExchange[exchange := id],
             s.desk.nextRequest);
    RoleKept(s.desk, s.groups, s.nextGroup, id, o, s.desk.byExchange, s.desk.nextRequest);
    assert s.desk.orders[id := o] == s.desk.orders;
    hide Books;
  }

  lemma BooksFillEvent(s: State, q: Queue, cfg: RiskConfig, e: Fill)
    requires Books(s, cfg)
    ensures Books(OnFill(s, q, cfg, e), cfg)
  {
    hide Books, Emits, AccountTerminal, UpdateGroup, AccountFill, RecordTrade, Linked;
    var found := FindRecord(s.desk, e.client, e.exchange);
    if found.Some? {
      var id := found.value;
      var d := Linked(s.desk, id, e.exchange);
      LinkedStays(s, cfg, id, e.exchange);
      NothingEmitted(s.wire);
      BooksDesk(s, cfg, d, s.wire);
      if e.trade.Some? && e.trade.value !in s.trades {
        BooksFill(s, cfg, d, id, e);
        BooksTerminal(AccountFill(RecordTrade(s, d, id, e), cfg, id, e), cfg, id);
        BooksUpdate(AccountTerminal(AccountFill(RecordTrade(s, d, id, e), cfg, id, e), cfg, id), q, cfg, id);
      }
    }
  }

  // ----------------------------------------------- reconciliation and control

  lemma BooksPosition(s: State, cfg: RiskConfig, v: VenuePosition)
    requires Books(s, cfg)
    ensures Books(OnPosition(s, cfg, v), cfg)
  {
    hide Books, MoneyInv, VenuePositionApplied, PortfoliosSame;
    BooksHaveMoney(s, cfg);
    VenuePositionInv(s.money, cfg, v);
    VenuePositionSame(s.money, cfg, v);
    BooksMoney(s, cfg, VenuePositionApplied(s.money, cfg, v));
    BooksGate(s.(money := VenuePositionApplied(s.money, cfg, v)), cfg, s.gate.(reconcileNeeded := cfg.required));
  }

  lemma VenuePositionSame(m: Money, cfg: RiskConfig, v: VenuePosition)
    ensures PortfoliosSame(m.portfolios, VenuePositionApplied(m, cfg, v).portfolios)
  {
    hide EnsurePortfolio, RecomputeAll, OverwrittenPosition, StorePosition, PortfoliosSame;
    if v.market == 0 || cfg.strategies != 1 {
      SameReflexive(m.portfolios);
    } else {
      var m1 := EnsurePortfolio(m, cfg, 0);
      EnsureShape(m, cfg, 0);
      EnsureSame(m, cfg, 0);
      var was := PositionOf(m1, 0, v.market, v.event);
      var m2 := StorePosition(m1, 0, PortfolioOf(m1, cfg, 0), was, OverwrittenPosition(was, v));
      StorePositionSame(m1, 0, PortfolioOf(m1, cfg, 0), was, OverwrittenPosition(was, v));
      RecomputeSame(m2, cfg);
      SameTrans(m.portfolios, m1.portfolios, m2.portfolios);
      SameTrans(m.portfolios, m2.portfolios, RecomputeAll(m2, cfg).portfolios);
    }
  }

  lemma SameReflexive(a: map<nat, Portfolio>)
    ensures PortfoliosSame(a, a)
  {
  }

  lemma AdoptSame(m: Money, cfg: RiskConfig, venue: map<nat, VenuePosition>)
    ensures PortfoliosSame(m.portfolios, AdoptPositions(m, cfg, venue).portfolios)
  {
    hide EnsurePortfolio, SnapshotPositions, Shifts, Sum;
    EnsureShape(m, cfg, 0);
  }

  lemma BooksSnapshot(s: State, cfg: RiskConfig, snap: PortfolioSnapshot, now: nat)
    requires Books(s, cfg)
    ensures Books(OnSnapshot(s, cfg, snap, now), cfg)
  {
    hide Books, MoneyInv, RecomputeAll, AdoptPositions, PortfoliosSame, VenueByMarket;
    var s' := OnSnapshot(s, cfg, snap, now);
    BooksHaveMoney(s, cfg);
    UnreconciledInv(s.money, cfg);
    var venue := VenueByMarket(snap.positions);
    SnapshotInv(s.money, cfg, snap.balance, venue);
    var m := s.money.(balance := snap.balance, reconciled := true);
    SameReflexive(s.money.portfolios);
    AdoptSame(m, cfg, venue);
    var m1 := if cfg.strategies == 1 then AdoptPositions(m, cfg, venue) else m;
    RecomputeSame(m1, cfg);
    RecomputeSame(s.money.(reconciled := false), cfg);
    SameTrans(s.money.portfolios, m1.portfolios, RecomputeAll(m1, cfg).portfolios);
    BooksMoney(s, cfg, s'.money);
    BooksGate(s.(money := s'.money), cfg, s'.gate);
  }

  lemma BooksUniverse(s: State, cfg: RiskConfig, u: Option<OrderUniverse>)
    requires Books(s, cfg)
    ensures Books(OnUniverse(s, cfg, u), cfg)
  {
    hide Books, MoneyInv, RecomputeAll, PortfoliosSame;
    var s' := OnUniverse(s, cfg, u);
    BooksHaveMoney(s, cfg);
    UnreconciledInv(s.money, cfg);
    SameReflexive(s.money.portfolios);
    RecomputeSame(s.money.(reconciled := false), cfg);
    BooksMoney(s, cfg, s'.money);
    BooksGate(s.(money := s'.money), cfg, s'.gate);
  }

  lemma BooksReconcile(s: State, q: Queue, cfg: RiskConfig, now: nat)
    requires Books(s, cfg)
    ensures Books(MaybeReconcile(s, q, cfg, now), cfg)
  {
    hide Books, ReconciliationDue, Emits;
    var s' := MaybeReconcile(s, q, cfg, now);
    if ReconciliationDue(s, cfg, now) {
      DueHasUniverse(s, cfg, now);
      SendEmits(s.wire, q, RequestReconciliation(s.gate.nextReconciliation, s.gate.universe.value.version), NoRepair);
      BooksWire(s, cfg, s'.wire);
      BooksGate(s.(wire := s'.wire), cfg, s'.gate);
    }
  }

  lemma DueHasUniverse(s: State, cfg: RiskConfig, now: nat)
    requires ReconciliationDue(s, cfg, now)
    ensures s.gate.universe.Some?
  {
  }

  lemma BooksCancelAll(s: State, q: Queue, cfg: RiskConfig, ids: seq<nat>)
    requires Books(s, cfg)
    ensures Books(OnCancelAll(s, q, ids), cfg)
  {
    hide Books, CancelEach;
    BooksCancelEach(s, q, cfg, ids);
    var (d, w, _) := CancelEach(s.desk, s.wire, q, ids, 0);
    BooksGate(s.(desk := d, wire := w), cfg, s.gate.(trading := false));
  }

  /** Every step keeps the books. */
  lemma BooksStep(s: State, q: Queue, cfg: RiskConfig, ev: Event)
    requires ValidRisk(cfg) && Books(s, cfg) && Enabled(s, cfg, ev)
    ensures Books(Step(s, q, cfg, ev), cfg)
  {
    hide Books, OnNewOrder, OnCancel, OnModify, OnGroup, OnRest, OnBatch, OnUserOrder, OnFill, OnPosition, OnSnapshot,
         OnCancelAll, OnUniverse, ServiceEach, MaybeReconcile, Enabled;
    match ev
    case NewOrderArrives(o) => BooksNewOrder(s, q, cfg, o);
    case CancelArrives(target) => BooksCancel(s, q, cfg, target);
    case ModifyArrives(target) => BooksModify(s, q, cfg, target);
    case GroupArrives(intent, now, slots) => BooksGroupIntent(s, q, cfg, intent, now, slots);
    case RestArrives(r, target) => BooksRest(s, q, cfg, r, target);
    case BatchArrives(b, targets) => BatchTargets(s, cfg, b, targets); BooksBatch(s, q, cfg, b, targets);
    case UserOrderArrives(e) => BooksUserOrder(s, q, cfg, e);
    case FillArrives(e) => BooksFillEvent(s, q, cfg, e);
    case PositionArrives(v) => BooksPosition(s, cfg, v);
    case SnapshotArrives(snap, now) => BooksSnapshot(s, cfg, snap, now);
    case AllowTrading => BooksGate(s, cfg, OnAllow(s, cfg).gate);
    case DisableTrading => BooksGate(s, cfg, OnDisable(s).gate);
    case CancelAllOrders(ids) => BooksCancelAll(s, q, cfg, ids);
    case ApplyUniverse(u) => BooksUniverse(s, cfg, u);
    case ServiceIncidents(gs) => BooksService(s, q, cfg, gs);
    case PumpReconciliation(now) => BooksReconcile(s, q, cfg, now);
  }

  lemma BatchTargets(s: State, cfg: RiskConfig, b: BatchResponse, targets: seq<Option<nat>>)
    requires Enabled(s, cfg, BatchArrives(b, targets))
    ensures |targets| == |b.responses|
  {
  }
}
