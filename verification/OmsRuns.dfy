/** The theorems about whole runs of the order management system: any sequence of intents, venue
    answers, fills, position messages, snapshots and control commands, with the venue queue
    accepting or refusing every push as it likes. */
module OmsRuns {
  import opened Wrappers
  import opened Bits
  import opened Sums
  import opened OmsTypes
  import opened Oms
  import opened OmsRepair
  import opened OmsMoney
  import opened OmsLedger
  import opened OmsBooks
  import opened OmsSteps
  import opened OmsHandlers
  import opened OmsGate
  import opened OmsEgress
  import opened OmsHistory

  ghost predicate Inv(s: State, cfg: RiskConfig) { Books(s, cfg) && GateInv(s, cfg) && IntentsKnown(s) }

  lemma InvStep(s: State, q: Queue, cfg: RiskConfig, ev: Event)
    requires ValidRisk(cfg) && Inv(s, cfg) && Enabled(s, cfg, ev)
    ensures Inv(Step(s, q, cfg, ev), cfg)
  {
    hide Books, GateInv, Step, Enabled, IntentsKnown;
    BooksStep(s, q, cfg, ev);
    GateStep(s, q, cfg, ev);
    IntentsStep(s, q, cfg, ev);
  }

  ghost predicate ValidRun(s: State, q: Queue, cfg: RiskConfig, evs: seq<Event>)
    decreases |evs|
  {
    evs == [] || (Enabled(s, cfg, evs[0]) && ValidRun(Step(s, q, cfg, evs[0]), q, cfg, evs[1..]))
  }

  ghost function Run(s: State, q: Queue, cfg: RiskConfig, evs: seq<Event>): State
    requires ValidRun(s, q, cfg, evs)
    decreases |evs|
  {
    if evs == [] then s else Run(Step(s, q, cfg, evs[0]), q, cfg, evs[1..])
  }

  ghost predicate Reachable(s: State, q: Queue, cfg: RiskConfig) {
    exists evs: seq<Event> :: ValidRun(Initial, q, cfg, evs) && Run(Initial, q, cfg, evs) == s
  }

  lemma {:induction false} RunInv(s: State, q: Queue, cfg: RiskConfig, evs: seq<Event>)
    requires ValidRisk(cfg) && Inv(s, cfg) && ValidRun(s, q, cfg, evs)
    ensures Inv(Run(s, q, cfg, evs), cfg)
    decreases |evs|
  {
    hide Inv, Step, Enabled;
    if evs != [] {
      InvStep(s, q, cfg, evs[0]);
      RunInv(Step(s, q, cfg, evs[0]), q, cfg, evs[1..]);
    }
  }

  lemma ReachableInv(s: State, q: Queue, cfg: RiskConfig)
    requires ValidRisk(cfg) && Reachable(s, q, cfg)
    ensures Inv(s, cfg)
  {
    hide Inv, Step, Enabled;
    var evs: seq<Event> :| ValidRun(Initial, q, cfg, evs) && Run(Initial, q, cfg, evs) == s;
    assert Inv(Initial, cfg) by { InitialInv(cfg); }
    RunInv(Initial, q, cfg, evs);
  }

  lemma InitialInv(cfg: RiskConfig)
    ensures Inv(Initial, cfg)
  {
    hide Books, GateInv;
    InitialBooks(cfg);
    InitialGate(cfg);
  }

  // ------------------------------------------------------------- egress safety

  /** The incident flag is exact, trading is justified, and an incident silences everything but
      cancels, reduce-only repairs and reconciliation requests. */
  lemma EgressSafety(s: State, q: Queue, cfg: RiskConfig, ev: Event)
    requires ValidRisk(cfg) && Reachable(s, q, cfg) && Enabled(s, cfg, ev)
    ensures s.gate.incident <==> exists g :: g in s.groups && Broken(s.groups[g].state)
    ensures s.gate.trading ==>
              && !s.gate.incident && s.gate.universe.Some? && s.gate.universe.value.version != 0
              && (cfg.required ==> s.money.reconciled && s.gate.reconciledFor == s.gate.universe.value.version)
    ensures s.gate.incident ==>
              var w' := Step(s, q, cfg, ev).wire;
              && |s.wire.log| <= |w'.log| && w'.log[..|s.wire.log|] == s.wire.log
              && forall i :: |s.wire.log| <= i < |w'.log| ==> SafeCommand(w'.log[i])
  {
    hide Step, Enabled, Books;
    ReachableInv(s, q, cfg);
    assert GateInv(s, cfg);
    EgressStep(s, q, cfg, ev);
  }

  // ---------------------------------------------------------------- the ledger

  /** Group, order and portfolio reservations agree in every reachable state. */
  lemma ReservationLedger(s: State, q: Queue, cfg: RiskConfig)
    requires ValidRisk(cfg) && Reachable(s, q, cfg)
    ensures forall g :: g in s.groups && !s.groups[g].released ==>
              s.groups[g].reserved == SeqSum(s.groups[g].legs, LegHolds(s.desk.orders))
    ensures forall k :: k in s.money.portfolios ==> s.money.portfolios[k].reserved <= Sum(s.desk.orders, HeldBy(k))
    ensures forall k :: k in s.money.portfolios ==> s.money.portfolios[k].activeGroups == Sum(s.groups, ActiveIn(k))
  {
    hide MoneyInv, RoundsInv, FillsInv, GateInv, Sum;
    ReachableInv(s, q, cfg);
    forall g | g in s.groups && !s.groups[g].released
      ensures s.groups[g].reserved == SeqSum(s.groups[g].legs, LegHolds(s.desk.orders)) {
      assert Funded(s.desk.orders, g, s.groups[g]);
      GroupLegSum(s, g);
    }
    forall k | k in s.money.portfolios ensures
      s.money.portfolios[k].reserved <= Sum(s.desk.orders, HeldBy(k))
          && s.money.portfolios[k].activeGroups == Sum(s.groups, ActiveIn(k))
    {
      assert Covered(s.desk.orders, s.money.portfolios, k) && Counted(s.groups, s.money.portfolios, k);
    }
  }

  lemma GroupLegSum(s: State, g: nat)
    requires Structure(s.desk, s.groups, s.nextGroup) && g in s.groups
    ensures Sum(s.desk.orders, HeldFor(g)) == SeqSum(s.groups[g].legs, LegHolds(s.desk.orders))
  {
    forall id | id in s.desk.orders && s.desk.orders[id].group == g && !s.desk.orders[id].repair
      ensures s.desk.orders[id].leg < |s.groups[g].legs| && s.groups[g].legs[s.desk.orders[id].leg].request == id
    {
      assert OrderPlaced(id, s.desk.orders[id], s.groups);
    }
    LegSum(s.desk.orders, g, s.groups[g].legs);
  }

  /** A group intent whose batch cannot be sent leaves orders, groups, intents, reservations and
      group counts exactly as they were. */
  lemma FailedSendRestores(s: State, q: Queue, cfg: RiskConfig, intent: GroupIntent, now: nat, slots: Option<int>)
    requires ValidRisk(cfg) && Books(s, cfg) && !q.accept(s.wire.uses)
    ensures var s' := OnGroup(s, q, cfg, intent, now, slots);
            && s'.desk.orders == s.desk.orders && s'.groups == s.groups && s'.byIntent == s.byIntent
            && s'.wire.log == s.wire.log
            && forall k: nat :: ReservedOf(s'.money.portfolios, k) == ReservedOf(s.money.portfolios, k) &&
                                ActiveOf(s'.money.portfolios, k) == ActiveOf(s.money.portfolios, k)
  {
    hide Books, JudgeGroup, Reserve, ReleaseMoney, OpenOrders, WithLegs, LegCommands, FreshGroup;
    BooksHaveMoney(s, cfg);
    var (reason, required) := JudgeGroup(s, cfg, intent, now, slots);
    var k := intent.context.strategy;
    var (m, ok) := Reserve(s.money, cfg, k, required);
    ReserveEffect(s.money, cfg, k, required);
    FreshGroupFacts(intent, s.desk.nextRequest + 1, required);
    if reason.None? && ok {
      RollbackExact(s.money, cfg, k, required, FreshGroup(intent, s.desk.nextRequest + 1, required));
    }
  }

  // --------------------------------------------------------------------- fills

  /** What the fills of a run contribute to leg `i` of group `g`: those of known orders, each trade id
      the first time it comes. */
  ghost function FilledLots(s: State, q: Queue, cfg: RiskConfig, evs: seq<Event>, seen: set<nat>, g: nat, i: nat): int
    requires ValidRun(s, q, cfg, evs)
    decreases |evs|
  {
    if evs == [] then 0
    else
      var next := Step(s, q, cfg, evs[0]);
      if evs[0].FillArrives? && Recognised(s, evs[0].fill) && evs[0].fill.trade.value !in seen then
        ToLeg(g, i)(ContributionOf(s, evs[0].fill))
        + FilledLots(next, q, cfg, evs[1..], seen + {evs[0].fill.trade.value}, g, i)
      else FilledLots(next, q, cfg, evs[1..], seen, g, i)
  }

  lemma {:induction false} TradesAreFills(s: State, q: Queue, cfg: RiskConfig, evs: seq<Event>, g: nat, i: nat)
    requires ValidRun(s, q, cfg, evs)
    ensures Sum(Run(s, q, cfg, evs).trades, ToLeg(g, i)) ==
            Sum(s.trades, ToLeg(g, i)) + FilledLots(s, q, cfg, evs, s.trades.Keys, g, i)
    decreases |evs|
  {
    hide Step, Enabled, Sum, ContributionOf, Recognised;
    if evs != [] {
      HistoryStep(s, q, cfg, evs[0]);
      TradesAreFills(Step(s, q, cfg, evs[0]), q, cfg, evs[1..], g, i);
      if evs[0].FillArrives? && Recognised(s, evs[0].fill) {
        var t: nat := RecognisedTrade(s, evs[0].fill);
        if t !in s.trades {
          SumUpdate(s.trades, t, ContributionOf(s, evs[0].fill), ToLeg(g, i));
          assert s.trades[t := ContributionOf(s, evs[0].fill)].Keys == s.trades.Keys + {t};
        }
      }
    }
  }

  lemma RecognisedTrade(s: State, e: Fill) returns (t: nat)
    requires Recognised(s, e)
    ensures e.trade == Some(t)
  {
    t := e.trade.value;
  }

  /** After every run the residual of a leg is what the fills of the run contributed to it, each
      trade once, unless a sum left 64 bits and the group is in doubt. */
  lemma FillsExactlyOnce(q: Queue, cfg: RiskConfig, evs: seq<Event>, g: nat, i: nat)
    requires ValidRisk(cfg) && ValidRun(Initial, q, cfg, evs)
    requires g in Run(Initial, q, cfg, evs).groups && i < |Run(Initial, q, cfg, evs).groups[g].legs|
    ensures var grp := Run(Initial, q, cfg, evs).groups[g];
            grp.legs[i].residual == FilledLots(Initial, q, cfg, evs, {}, g, i) || (grp.overflowed && grp.uncertain)
  {
    hide Structure, LedgerInv, MoneyInv, RoundsInv, GateInv, Sum, ValidRun, Run, FilledLots, ToLeg;
    var s := Run(Initial, q, cfg, evs);
    ReachableInv(s, q, cfg);
    assert GroupAccounted(s.trades, g, s.groups[g]);
    assert LegAccounted(s.trades, g, s.groups[g], i);
    TradesAreFills(Initial, q, cfg, evs, g, i);
    SumEmpty(Initial.trades, ToLeg(g, i));
    assert Initial.trades.Keys == {};
  }

  /** Every repair order an event sends, at whatever point of its handler, takes back exactly what the
      trades accounted by then left on its leg. */
  lemma RepairsUndoFills(s: State, q: Queue, cfg: RiskConfig, ev: Event)
    requires ValidRisk(cfg) && Reachable(s, q, cfg) && Enabled(s, cfg, ev)
    ensures var s' := Step(s, q, cfg, ev);
            && |s.wire.log| <= |s'.wire.log| && s'.wire.log[..|s.wire.log|] == s.wire.log
            && forall i :: |s.wire.log| <= i < |s'.wire.log| && s'.wire.log[i].Submit? && s'.wire.log[i].reduceOnly ==>
                 TakesBack(s'.wire.log[i], s'.groups, s'.trades)
  {
    hide Step, Enabled, Books, Reachable, TakesBack;
    ReachableInv(s, q, cfg);
    EgressStep(s, q, cfg, ev);
    var s' := Step(s, q, cfg, ev);
    forall i | |s.wire.log| <= i < |s'.wire.log| && s'.wire.log[i].Submit? && s'.wire.log[i].reduceOnly
      ensures TakesBack(s'.wire.log[i], s'.groups, s'.trades)
    {
      assert Repays(s'.groups, s'.trades)(s'.wire.log[i]);
    }
  }

  /** The state after the first `n` events of a run. */
  ghost function StateAt(s: State, q: Queue, cfg: RiskConfig, evs: seq<Event>, n: nat): State
    requires ValidRun(s, q, cfg, evs) && n <= |evs|
    decreases n
  {
    if n == 0 then s else StateAt(Step(s, q, cfg, evs[0]), q, cfg, evs[1..], n - 1)
  }

  /** So it is over whole runs: each repair order on the wire was put there by some event, after which
      it takes back exactly what the trades accounted by then left. */
  lemma {:induction false} EveryRepairUndoesFills(s: State, q: Queue, cfg: RiskConfig, evs: seq<Event>, i: nat)
    returns (n: nat)
    requires ValidRisk(cfg) && Inv(s, cfg) && ValidRun(s, q, cfg, evs)
    requires |s.wire.log| <= i < |Run(s, q, cfg, evs).wire.log|
    ensures n < |evs| && |StateAt(s, q, cfg, evs, n).wire.log| <= i < |StateAt(s, q, cfg, evs, n + 1).wire.log|
    ensures var (c, s') := (Run(s, q, cfg, evs).wire.log[i], StateAt(s, q, cfg, evs, n + 1));
            s'.wire.log[i] == c && (c.Submit? && c.reduceOnly ==> TakesBack(c, s'.groups, s'.trades))
    decreases |evs|
  {
    hide Inv, Step, Enabled, TakesBack;
    var s1 := Step(s, q, cfg, evs[0]);
    InvStep(s, q, cfg, evs[0]);
    RunAppends(s1, q, cfg, evs[1..]);
    if i < |s1.wire.log| {
      n := 0;
      assert StateAt(s, q, cfg, evs, 1) == s1;
      StepRepays(s, q, cfg, evs[0], i);
      assert Run(s, q, cfg, evs).wire.log[..|s1.wire.log|][i] == s1.wire.log[i];
    } else {
      n := EveryRepairUndoesFills(s1, q, cfg, evs[1..], i);
      n := n + 1;
      assert StateAt(s, q, cfg, evs, n) == StateAt(s1, q, cfg, evs[1..], n - 1);
      assert StateAt(s, q, cfg, evs, n + 1) == StateAt(s1, q, cfg, evs[1..], n);
    }
  }

  lemma StepRepays(s: State, q: Queue, cfg: RiskConfig, ev: Event, i: nat)
    requires Inv(s, cfg) && Enabled(s, cfg, ev) && |s.wire.log| <= i < |Step(s, q, cfg, ev).wire.log|
    ensures var (c, s') := (Step(s, q, cfg, ev).wire.log[i], Step(s, q, cfg, ev));
            c.Submit? && c.reduceOnly ==> TakesBack(c, s'.groups, s'.trades)
  {
    hide Step, Enabled, Books, TakesBack;
    EgressStep(s, q, cfg, ev);
    assert Repays(Step(s, q, cfg, ev).groups, Step(s, q, cfg, ev).trades)(Step(s, q, cfg, ev).wire.log[i]);
  }

  lemma {:induction false} RunAppends(s: State, q: Queue, cfg: RiskConfig, evs: seq<Event>)
    requires ValidRisk(cfg) && Inv(s, cfg) && ValidRun(s, q, cfg, evs)
    ensures |s.wire.log| <= |Run(s, q, cfg, evs).wire.log| && Run(s, q, cfg, evs).wire.log[..|s.wire.log|] == s.wire.log
    decreases |evs|
  {
    hide Books, GateInv, IntentsKnown, Step, Enabled, Repays;
    if evs != [] {
      var s1 := Step(s, q, cfg, evs[0]);
      InvStep(s, q, cfg, evs[0]);
      EgressStep(s, q, cfg, evs[0]);
      RunAppends(s1, q, cfg, evs[1..]);
      assert Run(s, q, cfg, evs).wire.log[..|s.wire.log|] ==
             Run(s, q, cfg, evs).wire.log[..|s1.wire.log|][..|s.wire.log|];
    }
  }

  // ------------------------------------------------------------------- capital

  /** Reserved capital stays within the allocation; available capital is fresh for its own portfolio. */
  lemma CapitalBound(s: State, q: Queue, cfg: RiskConfig, k: nat)
    requires ValidRisk(cfg) && Reachable(s, q, cfg) && k in s.money.portfolios
    ensures 0 <= s.money.portfolios[k].reserved <= Max(0, cfg.limit)
    ensures 0 <= s.money.portfolios[k].available <= StrategyAvailable(s.money.portfolios[k])
    ensures !cfg.required ==> s.money.portfolios[k].available == StrategyAvailable(s.money.portfolios[k])
    ensures cfg.required && !s.money.reconciled ==> s.money.portfolios[k].available == 0
    ensures s.money.portfolios.Keys == {k} ==>
              s.money.portfolios[k].available ==
              Available(cfg, s.money.reconciled, s.money.balance, GlobalReserved(s.money.portfolios),
                        s.money.portfolios[k])
  {
    hide Structure, LedgerInv, FillsInv, RoundsInv, GateInv, MoneyInv, GlobalReserved;
    ReachableInv(s, q, cfg);
    Standing(s.money, cfg, k);
    if s.money.portfolios.Keys == {k} { AloneAvailable(s.money, cfg, k); }
  }

  /** Every admitted group fits under its limit, and a single strategy under the venue balance. */
  lemma AdmissionWithinLimits(s: State, q: Queue, cfg: RiskConfig, intent: GroupIntent, now: nat, slots: Option<int>)
    requires ValidRisk(cfg) && Reachable(s, q, cfg) && s.nextGroup in OnGroup(s, q, cfg, intent, now, slots).groups
    ensures var m' := OnGroup(s, q, cfg, intent, now, slots).money;
            var k := intent.context.strategy;
            && k in m'.portfolios && m'.portfolios[k].reserved + Max(0, m'.portfolios[k].inventory) <= cfg.limit
            && (cfg.required && s.money.portfolios.Keys <= {k} ==>
                  s.money.reconciled && Sum(m'.portfolios, PositiveReserved) <= VenueAfterSafety(cfg, s.money.balance))
  {
    hide Reachable, Inv, JudgeGroup, Reserve, OpenOrders, MoneyInv, Sum, OnGroup;
    ReachableInv(s, q, cfg);
    var k := intent.context.strategy;
    var required := JudgeGroup(s, cfg, intent, now, slots).1;
    var m := Reserve(s.money, cfg, k, required).0;
    InvMoney(s, cfg);
    AdmittedMoney(s, q, cfg, intent, now, slots);
    ReserveFits(s.money, cfg, k, required);
    OpenKeeps(m, cfg, k, |intent.orders|);
    if cfg.required && s.money.portfolios.Keys <= {k} {
      SingleStrategyFits(s.money, cfg, k, required);
    }
  }

  /** A stored group means that its capital was granted. */
  lemma AdmittedMoney(s: State, q: Queue, cfg: RiskConfig, intent: GroupIntent, now: nat, slots: Option<int>)
    requires Inv(s, cfg) && s.nextGroup in OnGroup(s, q, cfg, intent, now, slots).groups
    ensures var k := intent.context.strategy;
            var (m, ok) := Reserve(s.money, cfg, k, JudgeGroup(s, cfg, intent, now, slots).1);
            ok && OnGroup(s, q, cfg, intent, now, slots).money == OpenOrders(m, cfg, k, |intent.orders|)
  {
    BooksHaveIds(s, cfg);
    hide Inv, JudgeGroup, Reserve, ReleaseMoney, OpenOrders, WithLegs, LegCommands, FreshGroup;
  }

  /** Every admitted single order fits under its limit, and a single strategy under the venue balance. */
  lemma OrderWithinLimits(s: State, q: Queue, cfg: RiskConfig, o: NewOrder)
    requires ValidRisk(cfg) && Reachable(s, q, cfg) && s.desk.nextRequest in OnNewOrder(s, q, cfg, o).desk.orders
    ensures var m' := OnNewOrder(s, q, cfg, o).money;
            var k := o.context.strategy;
            && k in m'.portfolios && m'.portfolios[k].reserved + Max(0, m'.portfolios[k].inventory) <= cfg.limit
            && (cfg.required && s.money.portfolios.Keys <= {k} ==>
                  s.money.reconciled && Sum(m'.portfolios, PositiveReserved) <= VenueAfterSafety(cfg, s.money.balance))
  {
    hide Reachable, Inv, EnsurePortfolio, MoneyInv, OpenOrders, RecomputeAll, Store, OnNewOrder, FullNotional, Sum;
    ReachableInv(s, q, cfg);
    InvMoney(s, cfg);
    var k := o.context.strategy;
    EnsureInv(s.money, cfg, k);
    EnsureShape(s.money, cfg, k);
    OrderMoney(s, q, cfg, o);
    var m := EnsurePortfolio(s.money, cfg, k);
    GrantedFits(m, cfg, k, FullNotional(o.quantity).value);
    if cfg.required && s.money.portfolios.Keys <= {k} {
      assert m.portfolios.Keys == {k};
      SingleGrantFits(m, cfg, k, FullNotional(o.quantity).value);
    }
  }

  /** With one portfolio, a granted single order also fits the reconciled balance less the safety reserve. */
  lemma SingleGrantFits(m: Money, cfg: RiskConfig, k: nat, amount: nat)
    requires ValidRisk(cfg) && MoneyInv(m, cfg) && m.portfolios.Keys == {k} && cfg.required
    requires 0 < amount <= m.portfolios[k].available
    ensures var p := m.portfolios[k];
            var m' := OpenOrders(RecomputeAll(Store(m, k, p.(reserved := p.reserved + amount)), cfg), cfg, k, 1);
            m.reconciled && Sum(m'.portfolios, PositiveReserved) <= VenueAfterSafety(cfg, m.balance)
  {
    hide MoneyInv, OpenOrders, RecomputeAll, Sum;
    var p := m.portfolios[k];
    var p' := p.(reserved := p.reserved + amount);
    var m1 := RecomputeAll(Store(m, k, p'), cfg);
    Standing(m, cfg, k);
    AloneAvailable(m, cfg, k);
    SingleSum(m.portfolios, k);
    RecomputeStored(m, cfg, k, p');
    SingleSum(m1.portfolios, k);
    OpenKeeps(m1, cfg, k, 1);
  }

  lemma GrantedFits(m: Money, cfg: RiskConfig, k: nat, amount: nat)
    requires ValidRisk(cfg) && MoneyInv(m, cfg) && k in m.portfolios && 0 < amount <= m.portfolios[k].available
    ensures var p := m.portfolios[k];
            var m' := OpenOrders(RecomputeAll(Store(m, k, p.(reserved := p.reserved + amount)), cfg), cfg, k, 1);
            k in m'.portfolios && m'.portfolios[k].reserved + Max(0, m'.portfolios[k].inventory) <= cfg.limit
  {
    hide MoneyInv, OpenOrders, RecomputeAll, Store, OwnFresh, PortfolioBounded, TotalsAre;
    var p := m.portfolios[k];
    var p' := p.(reserved := p.reserved + amount);
    Standing(m, cfg, k);
    AvailableFits(cfg, m.reconciled, p, amount);
    RecomputeStored(m, cfg, k, p');
    OpenKeeps(RecomputeAll(Store(m, k, p'), cfg), cfg, k, 1);
  }

  /** A stored order means that its capital was granted. */
  lemma OrderMoney(s: State, q: Queue, cfg: RiskConfig, o: NewOrder)
    requires Inv(s, cfg) && s.desk.nextRequest in OnNewOrder(s, q, cfg, o).desk.orders
    ensures var k := o.context.strategy;
            var m := EnsurePortfolio(s.money, cfg, k);
            var p := PortfolioOf(m, cfg, k);
            var amount := FullNotional(o.quantity);
            && amount.Some? && 0 < amount.value <= p.available
            && OnNewOrder(s, q, cfg, o).money ==
                 OpenOrders(RecomputeAll(Store(m, k, p.(reserved := p.reserved + amount.value)), cfg), cfg, k, 1)
  {
    hide Inv, EnsurePortfolio, OpenOrders, RecomputeAll, Store, FullNotional, JudgeNewOrder;
    InvIds(s, cfg);
    FullNotionalIsDollarPerContract(o.quantity);
  }

  lemma RecomputeStored(m: Money, cfg: RiskConfig, k: nat, p: Portfolio)
    ensures var m' := RecomputeAll(Store(m, k, p), cfg);
            && k in m'.portfolios && m'.portfolios[k].reserved == p.reserved
            && m'.portfolios[k].inventory == p.inventory
            && m'.portfolios.Keys == m.portfolios.Keys + {k}
  {
    hide Available, GlobalReserved;
  }

  lemma InvIds(s: State, cfg: RiskConfig)
    requires Inv(s, cfg)
    ensures IdsBelow(s.desk)
  {
    hide GateInv;
    BooksHaveIds(s, cfg);
  }

  lemma InvMoney(s: State, cfg: RiskConfig)
    requires Inv(s, cfg)
    ensures MoneyInv(s.money, cfg)
  {
  }

  lemma OpenKeeps(m: Money, cfg: RiskConfig, k: nat, n: nat)
    requires k in m.portfolios
    ensures var m' := OpenOrders(m, cfg, k, n);
            && k in m'.portfolios && m'.portfolios[k].reserved == m.portfolios[k].reserved
            && m'.portfolios[k].inventory == m.portfolios[k].inventory
            && Sum(m'.portfolios, PositiveReserved) == Sum(m.portfolios, PositiveReserved)
  {
    hide Sum;
    var m' := OpenOrders(m, cfg, k, n);
    assert m'.portfolios.Keys == m.portfolios.Keys;
    SumSame(m.portfolios, m'.portfolios, PositiveReserved, PositiveReserved);
  }

  lemma StoreOverall(m: Money, cfg: RiskConfig, k: nat, p: Portfolio)
    ensures var m' := StoreOne(m, cfg, k, p);
            && Sum(m'.portfolios, PositiveReserved) ==
               Sum(m.portfolios, PositiveReserved)
               + Max(0, p.reserved) - (if k in m.portfolios then Max(0, m.portfolios[k].reserved) else 0)
            && forall j :: j in m.portfolios && j != k ==> j in m'.portfolios && m'.portfolios[j] == m.portfolios[j]
  {
    hide Sum, Available, GlobalReserved;
    var q := StoreOne(m, cfg, k, p).portfolios[k];
    assert StoreOne(m, cfg, k, p).portfolios == m.portfolios[k := q];
    SumUpdate(m.portfolios, k, q, PositiveReserved);
  }

  /** A granted reservation adds exactly its amount to what is reserved over all strategies. */
  lemma ReservedOverall(m: Money, cfg: RiskConfig, k: nat, amount: nat)
    requires MoneyInv(m, cfg) && Reserve(m, cfg, k, amount).1
    ensures Sum(Reserve(m, cfg, k, amount).0.portfolios, PositiveReserved) == Sum(m.portfolios, PositiveReserved)
            + amount
    ensures forall j :: j in m.portfolios && j != k ==>
              j in Reserve(m, cfg, k, amount).0.portfolios
                  && Reserve(m, cfg, k, amount).0.portfolios[j] == m.portfolios[j]
  {
    hide Sum, StoreOne, TotalsAre, Fresh, PositionsOwned;
    EnsureShape(m, cfg, k);
    StoreOverall(m, cfg, k, PortfolioOf(m, cfg, k));
    assert k in m.portfolios ==> PortfolioSound(m, cfg, k);
    var m1 := EnsurePortfolio(m, cfg, k);
    var p := PortfolioOf(m1, cfg, k);
    StoreOverall(m1, cfg, k, p.(reserved := p.reserved + amount, activeGroups := p.activeGroups + 1));
  }

  /** Another strategy's available capital survives a reservation exactly when the venue does not bind
      it: it has no headroom of its own, the venue had none left, or both still fit. */
  lemma OtherStaysFreshIff(m: Money, cfg: RiskConfig, k: nat, amount: nat, j: nat)
    requires MoneyInv(m, cfg) && Reserve(m, cfg, k, amount).1 && m.balance <= I64_MAX
    requires j in m.portfolios && j != k && m.portfolios[j] == Recomputed(m, cfg, m.portfolios[j])
    ensures var m' := Reserve(m, cfg, k, amount).0;
            var (headroom, reserved, venue) :=
              (StrategyAvailable(m.portfolios[j]), Sum(m.portfolios, PositiveReserved),
               VenueAfterSafety(cfg, m.balance));
            && j in m'.portfolios
            && (m'.portfolios[j] == Recomputed(m', cfg, m'.portfolios[j]) <==>
                !cfg.required || !m.reconciled || headroom == 0 || venue <= reserved
                    || headroom + reserved + amount <= venue)
  {
    hide Sum, MoneyInv, EnsurePortfolio;
    ReservedOverall(m, cfg, k, amount);
    EnsureShape(m, cfg, k);
    ReservedNat(m.portfolios);
  }

  lemma ReservedNat(portfolios: map<nat, Portfolio>)
    ensures Sum(portfolios, PositiveReserved) >= 0
  {
    SumNonNegative(portfolios, PositiveReserved);
  }

  /** Inventory, realized profit and fees are the sums over positions in every reachable state. */
  lemma PortfolioTotals(s: State, q: Queue, cfg: RiskConfig, k: nat)
    requires ValidRisk(cfg) && Reachable(s, q, cfg) && k in s.money.portfolios
    ensures s.money.portfolios[k].inventory == Sum(s.money.positions, ExposureIn(k))
    ensures s.money.portfolios[k].realized == Sum(s.money.positions, RealizedIn(k))
    ensures s.money.portfolios[k].fees == Sum(s.money.positions, FeesIn(k))
    ensures forall key ::
              key in s.money.positions ==> s.money.positions[key].strategy == key.0 && key.0 in s.money.portfolios
  {
    hide Structure, LedgerInv, FillsInv, RoundsInv, GateInv, MoneyInv, Sum;
    ReachableInv(s, q, cfg);
    Standing(s.money, cfg, k);
    MoneyIsSound(s.money, cfg);
  }

  // -------------------------------------------------------------------- repair

  /** Over a whole run a group is sent at most the configured number of cancel rounds and of
      submit rounds, none longer than the group. */
  lemma BoundedRepair(s: State, q: Queue, cfg: RiskConfig, g: nat)
    requires ValidRisk(cfg) && Reachable(s, q, cfg) && g in s.groups
    ensures s.groups[g].cancelRounds <= cfg.maxRepairs && s.groups[g].submitRounds <= cfg.maxRepairs
    ensures Count(s.wire.log, IsCancelOf(g)) <= |s.groups[g].legs| * cfg.maxRepairs
    ensures Count(s.wire.log, IsSubmitOf(g)) <= |s.groups[g].legs| * cfg.maxRepairs
  {
    hide Structure, LedgerInv, FillsInv, MoneyInv, GateInv, Count;
    ReachableInv(s, q, cfg);
    var grp := s.groups[g];
    assert RoundsKept(s.wire.log, g, grp, cfg);
    RoundsMono(|grp.legs|, grp.cancelRounds, cfg.maxRepairs);
    RoundsMono(|grp.legs|, grp.submitRounds, cfg.maxRepairs);
  }

  lemma RoundsMono(legs: nat, a: nat, b: nat)
    requires a <= b
    ensures legs * a <= legs * b
  {
    if legs > 0 { MulMono(a, b, legs); }
  }

  /** Once the venue state of a group is uncertain it stays so for the rest of the run, and no
      repair order is submitted for the group any more. */
  lemma {:induction false} UncertaintyLatched(s: State, q: Queue, cfg: RiskConfig, evs: seq<Event>, g: nat)
    requires ValidRisk(cfg) && Inv(s, cfg) && ValidRun(s, q, cfg, evs) && g in s.groups && s.groups[g].uncertain
    ensures var s' := Run(s, q, cfg, evs);
            && g in s'.groups && s'.groups[g].uncertain
            && Count(s'.wire.log, IsSubmitOf(g)) == Count(s.wire.log, IsSubmitOf(g))
    decreases |evs|
  {
    hide Books, GateInv, Step, Enabled, Count;
    if evs != [] {
      var s1 := Step(s, q, cfg, evs[0]);
      InvStep(s, q, cfg, evs[0]);
      EgressStep(s, q, cfg, evs[0]);
      assert DoubtKept(s, s1, g);
      UncertaintyLatched(s1, q, cfg, evs[1..], g);
    }
  }
}
