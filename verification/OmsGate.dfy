/** The execution-incident latch and the trading gate: between handlers the latch is set exactly
    when some group is under repair, and trading implies that nothing stands against it. */
module OmsGate {
  import opened Wrappers
  import opened Sums
  import opened OmsTypes
  import opened Oms
  import opened OmsRepair
  import opened OmsMoney
  import opened OmsBooks
  import opened OmsSteps
  import opened OmsHandlers

  /** A group that ever needed repair orders is under repair or has given its capital back. */
  predicate RepairsOwned(orders: map<nat, Order>, groups: map<nat, Group>) {
    forall id :: id in orders && orders[id].repair ==>
      orders[id].group in groups && (Broken(groups[orders[id].group].state) || groups[orders[id].group].released)
  }

  predicate TradingJustified(t: Gate, reconciled: bool, cfg: RiskConfig) {
    && (cfg.required && reconciled ==> t.universe.Some? && t.reconciledFor == t.universe.value.version)
    && (t.trading ==> !t.incident && t.universe.Some? && t.universe.value.version != 0 && (cfg.required ==> reconciled))
  }

  predicate GateInv(s: State, cfg: RiskConfig) {
    && s.gate.incident == AnyBroken(s.groups)
    && RepairsOwned(s.desk.orders, s.groups)
    && TradingJustified(s.gate, s.money.reconciled, cfg)
  }

  lemma InitialGate(cfg: RiskConfig)
    ensures GateInv(Initial, cfg)
  {
  }

  // --------------------------------------------------- steps the gate cannot see

  predicate StatesSame(groups: map<nat, Group>, groups': map<nat, Group>) {
    groups'.Keys == groups.Keys && forall g ::
      g in groups ==> groups'[g].state == groups[g].state && groups'[g].released == groups[g].released
  }

  predicate RepairsSame(orders: map<nat, Order>, orders': map<nat, Order>) {
    forall id ::
      id in orders' && orders'[id].repair ==> id in orders && orders[id].repair && orders'[id].group == orders[id].group
  }

  predicate GateSame(t: Gate, t': Gate) {
    t'.incident == t.incident && t'.trading == t.trading && t'.universe == t.universe
        && t'.reconciledFor == t.reconciledFor
  }

  predicate Unseen(s: State, s': State) {
    && StatesSame(s.groups, s'.groups) && RepairsSame(s.desk.orders, s'.desk.orders) && GateSame(s.gate, s'.gate)
    && s'.money.reconciled == s.money.reconciled
  }

  lemma SameBroken(groups: map<nat, Group>, groups': map<nat, Group>)
    requires StatesSame(groups, groups')
    ensures AnyBroken(groups') == AnyBroken(groups)
  {
    if AnyBroken(groups) {
      var g :| g in groups && Broken(groups[g].state);
      assert g in groups' && Broken(groups'[g].state);
    }
    if AnyBroken(groups') {
      var g :| g in groups' && Broken(groups'[g].state);
      assert g in groups && Broken(groups[g].state);
    }
  }

  lemma GateUnseen(s: State, s': State, cfg: RiskConfig)
    requires GateInv(s, cfg) && Unseen(s, s')
    ensures GateInv(s', cfg)
  {
    hide AnyBroken;
    SameBroken(s.groups, s'.groups);
  }

  lemma UnseenTrans(s: State, s1: State, s2: State)
    requires Unseen(s, s1) && Unseen(s1, s2)
    ensures Unseen(s, s2)
  {
  }

  lemma ReduceUnseen(groups: map<nat, Group>, g: nat, amount: int)
    ensures StatesSame(groups, ReduceGroup(groups, g, amount))
  {
  }

  lemma TerminalUnseen(s: State, cfg: RiskConfig, id: nat)
    ensures Unseen(s, AccountTerminal(s, cfg, id))
  {
    hide ReduceGroup, EnsurePortfolio, RecomputeAll;
    if id in s.desk.orders && IsTerminal(s.desk.orders[id].state) && !s.desk.orders[id].accounted {
      var o := s.desk.orders[id];
      var m := EnsurePortfolio(s.money, cfg, o.context.strategy);
      var p := PortfolioOf(m, cfg, o.context.strategy);
      EnsureShape(s.money, cfg, o.context.strategy);
      var released := if o.state.Filled? || o.reserved <= 0 then 0 else Min(p.reserved, o.reserved);
      ReduceUnseen(s.groups, o.group, released);
      RecomputeFlags(Store(m, o.context.strategy,
                           p.(openOrders := OneLess(p.openOrders), reserved := p.reserved - released)), cfg);
    }
  }

  lemma RecomputeFlags(m: Money, cfg: RiskConfig)
    ensures RecomputeAll(m, cfg).reconciled == m.reconciled && RecomputeAll(m, cfg).balance == m.balance
    ensures RecomputeAll(m, cfg).positions == m.positions
  {
    hide Recomputed;
  }

  lemma RestOrderUnseen(s: State, cfg: RiskConfig, r: RestResponse, target: Option<nat>)
    ensures Unseen(s, RestOrder(s, cfg, r, target))
  {
    hide AccountTerminal, Answered;
    if target.Some? && target.value in s.desk.orders {
      var id := target.value;
      var d := Linked(s.desk, id, r.exchange);
      var s1 := s.(desk := WithOrder(d, id, Answered(d.orders[id], r.kind, r.result)));
      AnsweredRole(d.orders[id], r.kind, r.result);
      assert Unseen(s, s1);
      TerminalUnseen(s1, cfg, id);
      UnseenTrans(s, s1, AccountTerminal(s1, cfg, id));
    }
  }

  lemma {:induction false} RestLegsUnseen(s: State, cfg: RiskConfig, b: BatchResponse, targets: seq<Option<nat>>,
                                          i: nat)
    requires |targets| == |b.responses|
    ensures Unseen(s, RestLegs(s, cfg, b, targets, i))
    decreases |b.responses| - i
  {
    hide RestOrder;
    if i < |b.responses| {
      if b.responses[i].request == 0 {
        RestLegsUnseen(s, cfg, b, targets, i + 1);
      } else {
        var s1 := RestOrder(s, cfg, LegResult(b.responses[i], b.result), targets[i]);
        RestOrderUnseen(s, cfg, LegResult(b.responses[i], b.result), targets[i]);
        RestLegsUnseen(s1, cfg, b, targets, i + 1);
        UnseenTrans(s, s1, RestLegs(s1, cfg, b, targets, i + 1));
      }
    }
  }

  lemma FilledUnseen(groups: map<nat, Group>, o: Order, e: Fill)
    ensures StatesSame(groups, FilledGroups(groups, o, e))
  {
    hide WellFormedFill, FillLots, AddResidual;
    if o.group in groups { AddResidualStates(groups[o.group], o.leg, FillLots(o, e)); }
  }

  lemma AddResidualStates(grp: Group, leg: nat, lots: int)
    ensures AddResidual(grp, leg, lots).state == grp.state && AddResidual(grp, leg, lots).released == grp.released
  {
  }

  lemma FilledMoneyFlags(m: Money, cfg: RiskConfig, o: Order, e: Fill, released: int)
    ensures FilledMoney(m, cfg, o, e, released).reconciled == m.reconciled
  {
    hide EnsurePortfolio, RecomputeAll, FilledPosition;
    var k := o.context.strategy;
    EnsureShape(m, cfg, k);
    var m1 := EnsurePortfolio(m, cfg, k);
    var was := PositionOf(m1, k, o.market, o.context.event);
    var m2 := StorePosition(m1, k, PortfolioOf(m1, cfg, k), was,
                            FilledPosition(was, FillLots(o, e), YesPrice(o, e), e.average));
    var p := PortfolioOf(m2, cfg, k);
    RecomputeFlags(Store(m2, k, p.(reserved := p.reserved - Min(p.reserved, released))), cfg);
  }

  lemma AccountFillUnseen(s: State, cfg: RiskConfig, id: nat, e: Fill)
    ensures Unseen(s, AccountFill(s, cfg, id, e))
  {
    hide WellFormedFill, FilledGroups, ReduceGroup, FilledMoney, EnsurePortfolio, FillStops, StatesSame, RepairsSame,
         PositionOf, FillRelease;
    SameOrders(s.desk.orders, s.groups);
    if id in s.desk.orders && WellFormedFill(s.desk.orders[id], e) {
      var o := s.desk.orders[id];
      var groups := FilledGroups(s.groups, o, e);
      var released := FillRelease(o, e);
      FilledUnseen(s.groups, o, e);
      EnsureShape(s.money, cfg, o.context.strategy);
      ReduceUnseen(groups, o.group, released);
      StatesTrans(s.groups, groups, ReduceGroup(groups, o.group, released));
      RepairKept(s.desk.orders, id, o.(reserved := o.reserved - released));
      FilledMoneyFlags(s.money, cfg, o, e, released);
    }
  }

  lemma RepairKept(orders: map<nat, Order>, id: nat, o': Order)
    requires id in orders && o'.repair == orders[id].repair && o'.group == orders[id].group
    ensures RepairsSame(orders, orders[id := o'])
  {
  }

  lemma StatesTrans(a: map<nat, Group>, b: map<nat, Group>, c: map<nat, Group>)
    requires StatesSame(a, b) && StatesSame(b, c)
    ensures StatesSame(a, c)
  {
  }

  // ------------------------------------------------------------- repair passes

  lemma BrokenElsewhere(groups: map<nat, Group>, g: nat, grp': Group)
    requires g in groups && !Broken(groups[g].state) && !Broken(grp'.state)
    ensures AnyBroken(groups[g := grp']) == AnyBroken(groups)
  {
    if AnyBroken(groups) {
      var h :| h in groups && Broken(groups[h].state);
      assert h in groups[g := grp'] && Broken(groups[g := grp'][h].state);
    }
    if AnyBroken(groups[g := grp']) {
      var h :| h in groups[g := grp'] && Broken(groups[g := grp'][h].state);
      assert h in groups && Broken(groups[h].state);
    }
  }

  lemma BrokenHere(groups: map<nat, Group>, g: nat)
    requires g in groups && Broken(groups[g].state)
    ensures AnyBroken(groups)
  {
  }

  lemma OwnedAfterPass(d: Desk, d': Desk, groups: map<nat, Group>, g: nat, grp': Group)
    requires RepairsOwned(d.orders, groups) && g in groups && DeskGrows(d, d', g)
    requires Broken(grp'.state) || grp'.released
    ensures RepairsOwned(d'.orders, groups[g := grp'])
  {
    forall id | id in d'.orders && d'.orders[id].repair
      ensures d'.orders[id].group in groups[g := grp'] &&
              (Broken(groups[g := grp'][d'.orders[id].group].state) || groups[g := grp'][d'.orders[id].group].released)
    {
      if id in d.orders { assert SameRole(d.orders[id], d'.orders[id]); }
    }
  }

  lemma GateApply(s: State, cfg: RiskConfig, g: nat, r: Repair)
    requires GateInv(s, cfg) && g in s.groups && Broken(s.groups[g].state)
    requires PassFacts(s.desk, s.wire, cfg, g, s.groups[g], r)
    ensures GateInv(ApplyRepair(s, cfg, g, r), cfg)
  {
    hide DeskGrows, GroupKept, OneRound, RoundsBounded, RepairsOwned, HasResidual, AnyBroken, ReleaseGroup, OpenOrders;
    BrokenHere(s.groups, g);
    if r.done {
      GateDone(s, cfg, g, r);
    } else {
      OwnedAfterPass(s.desk, r.desk, s.groups, g, r.group);
      BrokenHere(s.groups[g := r.group], g);
      OpenFlags(s.money, cfg, r.group.context.strategy, r.placed);
    }
  }

  lemma OpenFlags(m: Money, cfg: RiskConfig, k: nat, n: nat)
    ensures OpenOrders(m, cfg, k, n).reconciled == m.reconciled
  {
    hide EnsurePortfolio;
    EnsureShape(m, cfg, k);
  }

  lemma ReleaseFlags(m: Money, cfg: RiskConfig, grp: Group)
    ensures ReleaseMoney(m, cfg, grp).reconciled == m.reconciled
  {
    hide EnsurePortfolio, Recomputed;
    EnsureShape(m, cfg, grp.context.strategy);
  }

  lemma GateDone(s: State, cfg: RiskConfig, g: nat, r: Repair)
    requires GateInv(s, cfg) && g in s.groups && s.gate.incident && DeskGrows(s.desk, r.desk, g) && r.done
    ensures GateInv(ApplyRepair(s, cfg, g, r), cfg)
  {
    hide DeskGrows, RepairsOwned, AnyBroken, ReleaseMoney, Releasable;
    ReleaseFlags(s.money, cfg, r.group);
    if r.group.released {
      OwnedAfterPass(s.desk, r.desk, s.groups, g, r.group);
      assert s.groups[g := r.group][g := r.group] == s.groups[g := r.group];
    } else {
      var after := ReleasedGroup(s.money, cfg, r.group);
      OwnedAfterPass(s.desk, r.desk, s.groups, g, after);
      assert s.groups[g := r.group][g := after] == s.groups[g := after];
    }
  }

  lemma GateContinue(s: State, q: Queue, cfg: RiskConfig, g: nat)
    requires GateInv(s, cfg) && IdsBelow(s.desk) && g in s.groups && (Broken(s.groups[g].state) || s.groups[g].released)
    ensures GateInv(ContinueRepair(s, q, cfg, g, s.groups[g]), cfg)
  {
    hide GateInv, PassFacts, RepairPass, ApplyRepair;
    var grp := s.groups[g];
    if grp.released || grp.state.RepairFailed? {
      assert s.groups[g := grp] == s.groups;
    } else {
      RepairPassFacts(s.desk, s.wire, q, cfg, g, grp);
      GateApply(s, cfg, g, RepairPass(s.desk, s.wire, q, cfg, g, grp));
    }
  }

  /** Storing a group under repair, with the latch set. */
  lemma GateLatched(s: State, cfg: RiskConfig, g: nat, grp: Group)
    requires GateInv(s, cfg) && g in s.groups && Broken(grp.state)
    ensures GateInv(s.(gate := Latch(s.gate), groups := s.groups[g := grp]), cfg)
  {
    BrokenHere(s.groups[g := grp], g);
  }

  lemma GateBegin(s: State, q: Queue, cfg: RiskConfig, g: nat, was: Group, reason: FailureReason)
    requires GateInv(s, cfg) && IdsBelow(s.desk) && g in s.groups
    ensures GateInv(BeginRepair(s, q, cfg, g, was, reason), cfg)
  {
    hide GateInv, ContinueRepair, HasResidual;
    var uncertain := was.uncertain || reason.VenueStateUncertain?;
    var grp := was.(uncertain := uncertain, failure := reason, exposed := HasResidual(was.legs),
                    state := UncertainOr(uncertain, RepairRequired));
    GateLatched(s, cfg, g, grp);
    ContinueStored(s.(gate := Latch(s.gate)), q, cfg, g, grp);
    GateContinue(s.(gate := Latch(s.gate), groups := s.groups[g := grp]), q, cfg, g);
  }

  /** A healthy group may move on or end; the latch does not look at it. */
  lemma GateHealthy(s: State, cfg: RiskConfig, g: nat, grp': Group, m: Money)
    requires GateInv(s, cfg) && g in s.groups && !Broken(s.groups[g].state) && !s.groups[g].released
    requires !Broken(grp'.state)
    requires m.reconciled == s.money.reconciled
    ensures GateInv(s.(groups := s.groups[g := grp'], money := m), cfg)
  {
    hide AnyBroken;
    BrokenElsewhere(s.groups, g, grp');
  }

  lemma GateSettle(s: State, q: Queue, cfg: RiskConfig, g: nat)
    requires GateInv(s, cfg) && IdsBelow(s.desk) && g in s.groups && !Broken(s.groups[g].state) && !s.groups[g].released
    ensures GateInv(SettleGroup(s, q, cfg, g, s.groups[g]), cfg)
  {
    hide GateInv, BeginRepair, HasResidual, AllLegs, SomeLeg, LegInDoubt, ReleaseMoney, Releasable;
    var was := s.groups[g];
    var grp := was.(exposed := HasResidual(was.legs));
    GateBegin(s, q, cfg, g, grp, VenueStateUncertain);
    GateBegin(s, q, cfg, g, grp, LegPartiallyFilled);
    var completed := grp.(state := Completed, failure := NoFailure, exposed := false);
    var aborted := grp.(state := Aborted, failure := NoFailure, exposed := false);
    ReleaseFlags(s.money, cfg, completed);
    ReleaseFlags(s.money, cfg, aborted);
    GateHealthy(s, cfg, g, ReleasedGroup(s.money, cfg, completed), ReleaseMoney(s.money, cfg, completed));
    GateHealthy(s, cfg, g, ReleasedGroup(s.money, cfg, aborted), ReleaseMoney(s.money, cfg, aborted));
    GateHealthy(s, cfg, g, grp.(state := GroupPartiallyFilled), s.money);
    GateHealthy(s, cfg, g, grp.(state := GroupWorking), s.money);
  }

  lemma GateDoubt(s: State, cfg: RiskConfig, g: nat, uncertain: bool)
    requires GateInv(s, cfg) && g in s.groups
    ensures GateInv(s.(groups := s.groups[g := s.groups[g].(uncertain := uncertain)]), cfg)
  {
    hide GateInv;
    GateUnseen(s, s.(groups := s.groups[g := s.groups[g].(uncertain := uncertain)]), cfg);
  }

  lemma OwnedAt(s: State, cfg: RiskConfig, id: nat)
    requires GateInv(s, cfg) && id in s.desk.orders && s.desk.orders[id].repair
    ensures s.desk.orders[id].group in s.groups
    ensures Broken(s.groups[s.desk.orders[id].group].state) || s.groups[s.desk.orders[id].group].released
  {
  }

  lemma GateUpdate(s: State, q: Queue, cfg: RiskConfig, id: nat)
    requires GateInv(s, cfg) && IdsBelow(s.desk)
    ensures GateInv(UpdateGroup(s, q, cfg, id), cfg)
  {
    hide GateInv, ContinueRepair, SettleGroup;
    if id in s.desk.orders && s.desk.orders[id].group != 0 && s.desk.orders[id].group in s.groups {
      var o := s.desk.orders[id];
      var was := s.groups[o.group];
      if o.repair { OwnedAt(s, cfg, id); }
      if o.repair || Broken(was.state) {
        var grp := was.(uncertain := was.uncertain || o.state.Uncertain?);
        GateDoubt(s, cfg, o.group, grp.uncertain);
        ContinueStored(s, q, cfg, o.group, grp);
        GateContinue(s.(groups := s.groups[o.group := grp]), q, cfg, o.group);
      } else if !was.released {
        GateSettle(s, q, cfg, o.group);
      }
    }
  }

  lemma {:induction false} GateService(s: State, q: Queue, cfg: RiskConfig, gs: seq<nat>)
    requires GateInv(s, cfg) && Books(s, cfg)
    ensures GateInv(ServiceEach(s, q, cfg, gs), cfg)
    decreases |gs|
  {
    hide GateInv, Books, ContinueRepair;
    if gs != [] {
      if gs[0] in s.groups && NeedsService(s.groups[gs[0]].state) {
        BooksHaveIds(s, cfg);
        GateContinue(s, q, cfg, gs[0]);
        BooksContinue(s, q, cfg, gs[0]);
        GateService(ContinueRepair(s, q, cfg, gs[0], s.groups[gs[0]]), q, cfg, gs[1..]);
      } else {
        GateService(s, q, cfg, gs[1..]);
      }
    }
  }

  // ----------------------------------------------------------------- handlers

  lemma NewOrderUnseen(s: State, q: Queue, cfg: RiskConfig, o: NewOrder)
    ensures Unseen(s, OnNewOrder(s, q, cfg, o))
  {
    hide EnsurePortfolio, RecomputeAll, JudgeNewOrder, OpenOrders, FullNotional, Store, StatesSame, RepairsSame;
    var k := o.context.strategy;
    EnsureShape(s.money, cfg, k);
    SameOrders(s.desk.orders, s.groups);
    if FullNotional(o.quantity).Some? {
      var m := EnsurePortfolio(s.money, cfg, k);
      OrderSentUnseen(s.(money := m), q, cfg, o, FullNotional(o.quantity).value);
    }
  }

  lemma SameOrders(orders: map<nat, Order>, groups: map<nat, Group>)
    ensures RepairsSame(orders, orders) && StatesSame(groups, groups)
  {
  }

  lemma NoRepairAdded(orders: map<nat, Order>, id: nat, rec: Order, o: NewOrder, amount: nat)
    requires rec == FreshOrder(o, 0, UnknownCommand, 0, 0, amount)
    ensures RepairsSame(orders, orders[id := rec])
  {
  }

  lemma OrderSentUnseen(s: State, q: Queue, cfg: RiskConfig, o: NewOrder, amount: nat)
    ensures Unseen(s, OrderSent(s, q, cfg, o, amount))
  {
    hide RecomputeAll, OpenOrders, StatesSame, RepairsSame, FreshOrder;
    NoRepairAdded(s.desk.orders, s.desk.nextRequest, FreshOrder(o, 0, UnknownCommand, 0, 0, amount), o, amount);
    var k := o.context.strategy;
    var p := PortfolioOf(s.money, cfg, k);
    var m1 := RecomputeAll(Store(s.money, k, p.(reserved := p.reserved + amount)), cfg);
    var p1 := PortfolioOf(m1, cfg, k);
    SameOrders(s.desk.orders, s.groups);
    RecomputeFlags(Store(s.money, k, p.(reserved := p.reserved + amount)), cfg);
    RecomputeFlags(Store(m1, k, p1.(reserved := p1.reserved - amount)), cfg);
    OpenFlags(m1, cfg, k, 1);
  }

  lemma ReserveFlags(m: Money, cfg: RiskConfig, k: nat, amount: nat)
    ensures Reserve(m, cfg, k, amount).0.reconciled == m.reconciled
  {
    hide EnsurePortfolio, Recomputed;
    EnsureShape(m, cfg, k);
  }

  lemma LegsNoRepair(orders: map<nat, Order>, intent: GroupIntent, g: nat, first: nat)
    requires forall id :: id in orders ==> id < first
    ensures RepairsSame(orders, WithLegs(orders, intent, g, first, |intent.orders|))
  {
    hide WithLegs;
    WithLegsShape(orders, intent, g, first, |intent.orders|);
  }

  lemma GateGroupIntent(s: State, q: Queue, cfg: RiskConfig, intent: GroupIntent, now: nat, slots: Option<int>)
    requires GateInv(s, cfg) && Books(s, cfg)
    ensures GateInv(OnGroup(s, q, cfg, intent, now, slots), cfg)
  {
    hide GateInv, Books, JudgeGroup, Reserve, WithLegs, ReleaseMoney, OpenOrders, LegCommands;
    var (reason, required) := JudgeGroup(s, cfg, intent, now, slots);
    var k := intent.context.strategy;
    var (m, ok) := Reserve(s.money, cfg, k, required);
    var (g, first) := (s.nextGroup, s.desk.nextRequest + 1);
    ReserveFlags(s.money, cfg, k, required);
    ReleaseFlags(m, cfg, FreshGroup(intent, first, required));
    OpenFlags(m, cfg, k, |intent.orders|);
    var s' := OnGroup(s, q, cfg, intent, now, slots);
    if reason.None? && ok && Send(s.wire, q, SubmitBatch(s.desk.nextRequest, g, LegCommands(intent, first))).1 {
      NoOrderOf(s, cfg);
      BooksHaveIds(s, cfg);
      LegsNoRepair(s.desk.orders, intent, g, first);
      GateNewGroup(s, s', cfg, g);
    } else {
      GateUnseen(s, s', cfg);
    }
  }

  lemma GateNewGroup(s: State, s': State, cfg: RiskConfig, g: nat)
    requires GateInv(s, cfg) && g !in s.groups && g in s'.groups && s'.groups == s.groups[g := s'.groups[g]]
    requires !Broken(s'.groups[g].state)
    requires RepairsSame(s.desk.orders, s'.desk.orders) && s'.gate == s.gate
    requires s'.money.reconciled == s.money.reconciled
    ensures GateInv(s', cfg)
  {
    if AnyBroken(s.groups) {
      var h :| h in s.groups && Broken(s.groups[h].state);
      assert h in s'.groups && Broken(s'.groups[h].state);
    }
    if AnyBroken(s'.groups) {
      var h :| h in s'.groups && Broken(s'.groups[h].state);
      assert h in s.groups && Broken(s.groups[h].state);
    }
  }

  lemma GateCancelEach(s: State, s': State, q: Queue, cfg: RiskConfig, ids: seq<nat>)
    requires GateInv(s, cfg) && IdsBelow(s.desk)
    requires s' == s.(desk := s'.desk, wire := s'.wire) && s'.desk == CancelEach(s.desk, s.wire, q, ids, 0).0
    ensures GateInv(s', cfg)
  {
    hide CancelEach, GateInv;
    CancelEachFacts(s.desk, s.wire, q, ids, 0);
    GateUnseen(s, s', cfg);
  }

  lemma GateCancel(s: State, q: Queue, cfg: RiskConfig, target: nat)
    requires GateInv(s, cfg) && IdsBelow(s.desk)
    ensures GateInv(OnCancel(s, q, target), cfg)
  {
    hide EmitCancel, GateInv;
    EmitCancelFacts(s.desk, s.wire, q, target, 0);
    GateUnseen(s, OnCancel(s, q, target), cfg);
  }

  lemma GateRest(s: State, q: Queue, cfg: RiskConfig, r: RestResponse, target: Option<nat>)
    requires GateInv(s, cfg) && Books(s, cfg)
    ensures GateInv(OnRest(s, q, cfg, r, target), cfg)
  {
    hide GateInv, Books, RestOrder, UpdateGroup, Unseen;
    if target.Some? {
      var s1 := RestOrder(s, cfg, r, target);
      BooksRestOrder(s, cfg, r, target);
      BooksHaveIds(s1, cfg);
      RestOrderUnseen(s, cfg, r, target);
      GateUnseen(s, s1, cfg);
      GateUpdate(s1, q, cfg, target.value);
    }
  }

  lemma GateBatch(s: State, q: Queue, cfg: RiskConfig, b: BatchResponse, targets: seq<Option<nat>>)
    requires GateInv(s, cfg) && Books(s, cfg) && |targets| == |b.responses|
    ensures GateInv(OnBatch(s, q, cfg, b, targets), cfg)
  {
    hide GateInv, Books, RestLegs, BeginRepair, UpdateGroup, Unseen;
    var s1 := RestLegs(s, cfg, b, targets, 0);
    BooksRestLegs(s, cfg, b, targets, 0);
    BooksHaveIds(s1, cfg);
    RestLegsUnseen(s, cfg, b, targets, 0);
    GateUnseen(s, s1, cfg);
    if b.group in s1.groups && s1.groups[b.group].legs != [] {
      var grp := s1.groups[b.group];
      GateBegin(s1, q, cfg, b.group, grp.(uncertain := true), VenueStateUncertain);
      GateUpdate(s1, q, cfg, grp.legs[0].request);
    }
  }

  lemma GateUserOrder(s: State, q: Queue, cfg: RiskConfig, e: UserOrder)
    requires GateInv(s, cfg) && Books(s, cfg)
    ensures GateInv(OnUserOrder(s, q, cfg, e), cfg)
  {
    hide GateInv, Books, AccountTerminal, UpdateGroup;
    var found := FindRecord(s.desk, e.client, e.exchange);
    if found.Some? {
      var id := found.value;
      var d := Linked(s.desk, id, e.exchange);
      var o := UserOrderApplied(d.orders[id], e);
      var s1 := s.(desk := WithOrder(d, id, o));
      var s2 := AccountTerminal(s1, cfg, id);
      assert Unseen(s, s1);
      TerminalUnseen(s1, cfg, id);
      UnseenTrans(s, s1, s2);
      GateUnseen(s, s2, cfg);
      assert IdsBelow(s2.desk) by { UserOrderIds(s, cfg, e, id, d, o); }
      GateUpdate(s2, q, cfg, id);
    }
  }

  lemma UserOrderIds(s: State, cfg: RiskConfig, e: UserOrder, id: nat, d: Desk, o: Order)
    requires Books(s, cfg) && id in s.desk.orders && d == Linked(s.desk, id, e.exchange)
    requires o == UserOrderApplied(d.orders[id], e)
    ensures IdsBelow(AccountTerminal(s.(desk := WithOrder(d, id, o)), cfg, id).desk)
  {
    hide Books, AccountTerminal, Emits;
    NothingEmitted(s.wire);
    BooksRole(s, cfg, id, o, d.byExchange, d.nextRequest, s.wire);
    assert WithOrder(d, id, o).orders == s.desk.orders[id := o];
    BooksTerminal(s.(desk := WithOrder(d, id, o)), cfg, id);
    BooksHaveIds(AccountTerminal(s.(desk := WithOrder(d, id, o)), cfg, id), cfg);
  }

  lemma LinkedUnseen(s: State, id: nat, exchange: nat)
    ensures Unseen(s, s.(desk := Linked(s.desk, id, exchange)))
  {
  }

  lemma RecordUnseen(s: State, id: nat, e: Fill)
    requires id in s.desk.orders && e.trade.Some?
    ensures Unseen(s, RecordTrade(s, Linked(s.desk, id, e.exchange), id, e))
  {
    hide FilledOrder, Contributes;
    FilledOrderRole(Linked(s.desk, id, e.exchange).orders[id], e);
  }

  lemma GateFill(s: State, q: Queue, cfg: RiskConfig, e: Fill)
    requires GateInv(s, cfg) && Books(s, cfg)
    ensures GateInv(OnFill(s, q, cfg, e), cfg)
  {
    hide GateInv, Books, AccountTerminal, UpdateGroup, AccountFill, RecordTrade, Linked, Unseen;
    var found := FindRecord(s.desk, e.client, e.exchange);
    if found.Some? {
      var id := found.value;
      var d := Linked(s.desk, id, e.exchange);
      LinkedUnseen(s, id, e.exchange);
      GateUnseen(s, s.(desk := d), cfg);
      LinkedStays(s, cfg, id, e.exchange);
      if e.trade.Some? && e.trade.value !in s.trades {
        var s1 := RecordTrade(s, d, id, e);
        var s2 := AccountFill(s1, cfg, id, e);
        var s3 := AccountTerminal(s2, cfg, id);
        RecordUnseen(s, id, e);
        AccountFillUnseen(s1, cfg, id, e);
        TerminalUnseen(s2, cfg, id);
        GateUnseen(s, s1, cfg);
        GateUnseen(s1, s2, cfg);
        GateUnseen(s2, s3, cfg);
        BooksFill(s, cfg, d, id, e);
        BooksTerminal(s2, cfg, id);
        BooksHaveIds(s3, cfg);
        GateUpdate(s3, q, cfg, id);
      }
    }
  }

  lemma PositionFlags(m: Money, cfg: RiskConfig, v: VenuePosition)
    ensures VenuePositionApplied(m, cfg, v).reconciled == m.reconciled
  {
    hide EnsurePortfolio, RecomputeAll, OverwrittenPosition;
    EnsureShape(m, cfg, 0);
    var m1 := EnsurePortfolio(m, cfg, 0);
    var was := PositionOf(m1, 0, v.market, v.event);
    RecomputeFlags(StorePosition(m1, 0, PortfolioOf(m1, cfg, 0), was, OverwrittenPosition(was, v)), cfg);
  }

  lemma GateSnapshot(s: State, cfg: RiskConfig, snap: PortfolioSnapshot, now: nat)
    requires GateInv(s, cfg)
    ensures GateInv(OnSnapshot(s, cfg, snap, now), cfg)
  {
    hide RecomputeAll, AdoptPositions, VenueByMarket, AnyBroken, RepairsOwned;
    var m := s.money.(balance := snap.balance, reconciled := true);
    var venue := VenueByMarket(snap.positions);
    AdoptFlags(m, cfg, venue);
    RecomputeFlags(s.money.(reconciled := false), cfg);
    RecomputeFlags(if cfg.strategies == 1 then AdoptPositions(m, cfg, venue) else m, cfg);
  }

  lemma AdoptFlags(m: Money, cfg: RiskConfig, venue: map<nat, VenuePosition>)
    ensures AdoptPositions(m, cfg, venue).reconciled == m.reconciled
  {
    hide EnsurePortfolio, Shifts, SnapshotPositions, Sum;
    EnsureShape(m, cfg, 0);
  }

  lemma GateUniverse(s: State, cfg: RiskConfig, u: Option<OrderUniverse>)
    requires GateInv(s, cfg)
    ensures GateInv(OnUniverse(s, cfg, u), cfg)
  {
    hide RecomputeAll, AnyBroken, RepairsOwned;
    RecomputeFlags(s.money.(reconciled := false), cfg);
  }

  lemma GateControl(s: State, q: Queue, cfg: RiskConfig, ev: Event)
    requires GateInv(s, cfg) && Books(s, cfg)
    requires (ev.AllowTrading? || ev.DisableTrading? || ev.CancelAllOrders? || ev.PumpReconciliation?)
    requires Enabled(s, cfg, ev)
    ensures GateInv(Step(s, q, cfg, ev), cfg)
  {
    hide AnyBroken, RepairsOwned, Books, CancelEach, Enumerates, ReconciliationDue;
    BooksHaveIds(s, cfg);
    match ev
    case CancelAllOrders(ids) =>
      var (d, w, _) := CancelEach(s.desk, s.wire, q, ids, 0);
      GateCancelEach(s, s.(desk := d, wire := w), q, cfg, ids);
    case _ =>
  }

  /** Every step keeps the latch exact and the trading gate justified. */
  lemma GateStep(s: State, q: Queue, cfg: RiskConfig, ev: Event)
    requires ValidRisk(cfg) && Books(s, cfg) && GateInv(s, cfg) && Enabled(s, cfg, ev)
    ensures GateInv(Step(s, q, cfg, ev), cfg)
  {
    hide Books, GateInv, OnNewOrder, OnCancel, OnModify, OnGroup, OnRest, OnBatch, OnUserOrder, OnFill, OnPosition,
         OnSnapshot,
         OnUniverse, ServiceEach, Enabled, Unseen, OnAllow, OnDisable, OnCancelAll, MaybeReconcile;
    BooksHaveIds(s, cfg);
    match ev
    case NewOrderArrives(o) =>
      NewOrderUnseen(s, q, cfg, o);
      GateUnseen(s, OnNewOrder(s, q, cfg, o), cfg);
    case CancelArrives(target) => GateCancel(s, q, cfg, target);
    case ModifyArrives(target) =>
      ModifyUnseen(s, q, target);
      GateUnseen(s, OnModify(s, q, target), cfg);
    case GroupArrives(intent, now, slots) => GateGroupIntent(s, q, cfg, intent, now, slots);
    case RestArrives(r, target) => GateRest(s, q, cfg, r, target);
    case BatchArrives(b, targets) => BatchTargets(s, cfg, b, targets); GateBatch(s, q, cfg, b, targets);
    case UserOrderArrives(e) => GateUserOrder(s, q, cfg, e);
    case FillArrives(e) => GateFill(s, q, cfg, e);
    case PositionArrives(v) =>
      PositionUnseen(s, cfg, v);
      GateUnseen(s, OnPosition(s, cfg, v), cfg);
    case SnapshotArrives(snap, now) => GateSnapshot(s, cfg, snap, now);
    case ApplyUniverse(u) => GateUniverse(s, cfg, u);
    case ServiceIncidents(gs) => GateService(s, q, cfg, gs);
    case AllowTrading => GateControl(s, q, cfg, ev);
    case DisableTrading => GateControl(s, q, cfg, ev);
    case CancelAllOrders(ids) => GateControl(s, q, cfg, ev);
    case PumpReconciliation(now) => GateControl(s, q, cfg, ev);
  }

  lemma ModifyUnseen(s: State, q: Queue, target: nat)
    ensures Unseen(s, OnModify(s, q, target))
  {
  }

  lemma PositionUnseen(s: State, cfg: RiskConfig, v: VenuePosition)
    ensures Unseen(s, OnPosition(s, cfg, v))
  {
    hide VenuePositionApplied;
    PositionFlags(s.money, cfg, v);
  }
}
