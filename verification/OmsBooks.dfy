/** What every step of the order management system keeps in its books: the shape of orders and
    groups, the reservation ledger, the fill accounts, the portfolios, and the bounds on repair. */
module OmsBooks {
  import opened Sums
  import opened OmsTypes
  import opened Oms
  import opened OmsRepair
  import opened OmsMoney
  import opened OmsLedger

  // ------------------------------------------------------------------ counting

  function Count(log: seq<Command>, p: Command -> bool): nat {
    if log == [] then 0 else Count(log[..|log| - 1], p) + if p(log[|log| - 1]) then 1 else 0
  }

  function IsSubmitOf(g: nat): Command -> bool { (c: Command) => c.Submit? && c.reduceOnly && c.repairOf == g }

  /** A longer log counts at most its new commands more, and none when they do not qualify. */
  lemma {:induction false} CountGrows(w: Wire, w': Wire, r: Command -> bool, p: Command -> bool)
    requires Emits(w, w', r)
    ensures Count(w.log, p) <= Count(w'.log, p) <= Count(w.log, p) + |w'.log| - |w.log|
    ensures (forall c: Command :: r(c) ==> !p(c)) ==> Count(w'.log, p) == Count(w.log, p)
    decreases |w'.log|
  {
    if |w'.log| == |w.log| {
      assert w'.log == w'.log[..|w.log|];
    } else {
      var shorter := w'.(log := w'.log[..|w'.log| - 1]);
      assert shorter.log[..|w.log|] == w.log;
      assert Emits(w, shorter, r);
      CountGrows(w, shorter, r, p);
      assert r(w'.log[|w'.log| - 1]);
    }
  }

  /** Over the whole run, a group was sent no more repair commands than its rounds allow. */
  predicate RoundsKept(log: seq<Command>, g: nat, grp: Group, cfg: RiskConfig) {
    && RoundsBounded(cfg, grp)
    && Count(log, IsCancelOf(g)) <= |grp.legs| * grp.cancelRounds
    && Count(log, IsSubmitOf(g)) <= |grp.legs| * grp.submitRounds
  }

  predicate Untouched(log: seq<Command>, g: nat) {
    Count(log, IsCancelOf(g)) == 0 && Count(log, IsSubmitOf(g)) == 0
  }

  ghost predicate RoundsInv(log: seq<Command>, groups: map<nat, Group>, nextGroup: nat, cfg: RiskConfig) {
    && (forall g :: g in groups ==> RoundsKept(log, g, groups[g], cfg))
    && (forall g: nat :: nextGroup <= g ==> Untouched(log, g))
  }

  ghost predicate Books(s: State, cfg: RiskConfig) {
    && Structure(s.desk, s.groups, s.nextGroup)
    && LedgerInv(s.desk.orders, s.groups, s.money.portfolios)
    && FillsInv(s.groups, s.trades, s.nextGroup)
    && MoneyInv(s.money, cfg)
    && RoundsInv(s.wire.log, s.groups, s.nextGroup, cfg)
  }

  lemma InitialBooks(cfg: RiskConfig)
    ensures Books(Initial, cfg)
  {
    hide Sum;
    forall k: nat ensures Covered(map[], map[], k) && Counted(map[], map[], k) {
      SumEmpty<nat, Order>(map[], HeldBy(k));
      SumEmpty<nat, Group>(map[], ActiveIn(k));
    }
  }

  // ------------------------------------------------------- rounds and the wire

  predicate NoRepair(c: Command) { !(c.Cancel? && c.repairOf != 0) && !(c.Submit? && c.reduceOnly) }

  /** Commands that repair no group leave every bound as it was. */
  lemma RoundsUnrelated(w: Wire, w': Wire, groups: map<nat, Group>, nextGroup: nat, cfg: RiskConfig)
    requires RoundsInv(w.log, groups, nextGroup, cfg) && Emits(w, w', NoRepair) && 0 < nextGroup
    requires forall g :: g in groups ==> 0 < g
    ensures RoundsInv(w'.log, groups, nextGroup, cfg)
  {
    hide Count, RoundsBounded;
    forall g: nat | 0 < g
      ensures Count(w'.log, IsCancelOf(g)) == Count(w.log, IsCancelOf(g))
      ensures Count(w'.log, IsSubmitOf(g)) == Count(w.log, IsSubmitOf(g)) {
      CountGrows(w, w', NoRepair, IsCancelOf(g));
      CountGrows(w, w', NoRepair, IsSubmitOf(g));
    }
    forall g | g in groups ensures RoundsKept(w'.log, g, groups[g], cfg) {
      assert RoundsKept(w.log, g, groups[g], cfg);
    }
    forall g: nat | nextGroup <= g ensures Untouched(w'.log, g) { assert Untouched(w.log, g); }
  }

  /** Groups that keep their legs and counters keep their bounds. */
  lemma RoundsSame(log: seq<Command>, groups: map<nat, Group>, groups': map<nat, Group>, nextGroup: nat,
                   cfg: RiskConfig)
    requires RoundsInv(log, groups, nextGroup, cfg) && groups'.Keys == groups.Keys
    requires forall g :: g in groups ==> SameRounds(groups[g], groups'[g])
    ensures RoundsInv(log, groups', nextGroup, cfg)
  {
    hide Count;
    forall g | g in groups' ensures RoundsKept(log, g, groups'[g], cfg) {
      assert RoundsKept(log, g, groups[g], cfg) && SameRounds(groups[g], groups'[g]);
    }
  }

  predicate SameRounds(grp: Group, grp': Group) {
    && |grp'.legs| == |grp.legs| && grp'.cancelRounds == grp.cancelRounds && grp'.submitRounds == grp.submitRounds
    && grp'.repairRounds == grp.repairRounds && (grp.uncertain ==> grp'.uncertain)
  }

  /** One pass over a group accounts for what it sends. */
  lemma RoundsOfPass(w: Wire, w': Wire, groups: map<nat, Group>, g: nat, grp': Group, nextGroup: nat, cfg: RiskConfig)
    requires RoundsInv(w.log, groups, nextGroup, cfg) && g in groups && 0 < g < nextGroup
    requires GroupKept(groups[g], grp') && OneRound(w, w', g, groups[g], grp') && RoundsBounded(cfg, grp')
    ensures RoundsInv(w'.log, groups[g := grp'], nextGroup, cfg)
  {
    hide Count, RoundsBounded, Emits, SameLegs;
    var grp := groups[g];
    assert RoundsKept(w.log, g, grp, cfg);
    assert |grp'.legs| == |grp.legs| by { LegCountKept(grp.legs, grp'.legs); }
    if |w'.log| == |w.log| {
      forall h | h in groups && h != g ensures RoundsKept(w'.log, h, groups[h], cfg) {
        assert RoundsKept(w.log, h, groups[h], cfg);
      }
    } else {
      PassCounts(w, w', g, grp, grp');
      forall h | h in groups && h != g ensures RoundsKept(w'.log, h, groups[h], cfg) {
        assert RoundsKept(w.log, h, groups[h], cfg);
        PassElsewhere(w, w', g, grp, grp', h);
      }
      forall h: nat | nextGroup <= h ensures Untouched(w'.log, h) {
        assert Untouched(w.log, h);
        PassElsewhere(w, w', g, grp, grp', h);
      }
    }
  }

  lemma LegCountKept(legs: seq<Leg>, legs': seq<Leg>)
    requires SameLegs(legs, legs')
    ensures |legs| == |legs'|
  {
  }

  lemma PassCounts(w: Wire, w': Wire, g: nat, grp: Group, grp': Group)
    requires OneRound(w, w', g, grp, grp') && |w'.log| != |w.log|
    requires Count(w.log, IsCancelOf(g)) <= |grp.legs| * grp.cancelRounds
    requires Count(w.log, IsSubmitOf(g)) <= |grp.legs| * grp.submitRounds
    ensures Count(w'.log, IsCancelOf(g)) <= |grp.legs| * grp'.cancelRounds
    ensures Count(w'.log, IsSubmitOf(g)) <= |grp.legs| * grp'.submitRounds
  {
    hide Count, Emits;
    if grp'.cancelRounds == grp.cancelRounds + 1 {
      CountGrows(w, w', IsCancelOf(g), IsCancelOf(g));
      CountGrows(w, w', IsCancelOf(g), IsSubmitOf(g));
      assert |grp.legs| * grp'.cancelRounds == |grp.legs| * grp.cancelRounds + |grp.legs|;
    } else {
      CountGrows(w, w', UndoesLegs(g, grp.legs), IsCancelOf(g));
      CountGrows(w, w', UndoesLegs(g, grp.legs), IsSubmitOf(g));
      assert |grp.legs| * grp'.submitRounds == |grp.legs| * grp.submitRounds + |grp.legs|;
    }
  }

  lemma PassElsewhere(w: Wire, w': Wire, g: nat, grp: Group, grp': Group, h: nat)
    requires OneRound(w, w', g, grp, grp') && |w'.log| != |w.log| && h != g
    ensures Count(w'.log, IsCancelOf(h)) == Count(w.log, IsCancelOf(h))
    ensures Count(w'.log, IsSubmitOf(h)) == Count(w.log, IsSubmitOf(h))
  {
    hide Count, Emits;
    if grp'.cancelRounds == grp.cancelRounds + 1 {
      CountGrows(w, w', IsCancelOf(g), IsCancelOf(h));
      CountGrows(w, w', IsCancelOf(g), IsSubmitOf(h));
    } else {
      CountGrows(w, w', UndoesLegs(g, grp.legs), IsCancelOf(h));
      CountGrows(w, w', UndoesLegs(g, grp.legs), IsSubmitOf(h));
    }
  }

  // ------------------------------------------------------- books, piece by piece

  /** Orders that keep their role, and commands that repair nothing. */
  lemma BooksDesk(s: State, cfg: RiskConfig, d': Desk, w': Wire)
    requires Books(s, cfg) && OrdersStay(s.desk, d', s.groups) && OrdersSame(s.desk.orders, d'.orders)
    requires Emits(s.wire, w', NoRepair)
    ensures Books(s.(desk := d', wire := w'), cfg)
  {
    hide LedgerInv, FillsInv, MoneyInv, RoundsInv, OrdersSame, OrdersStay, Emits;
    assert forall g :: g in s.groups ==> 0 < g;
    StructureStays(s.desk, s.groups, d', s.groups, s.nextGroup);
    LedgerStays(s.desk.orders, s.groups, s.money.portfolios, d'.orders, s.groups, s.money.portfolios);
    RoundsUnrelated(s.wire, w', s.groups, s.nextGroup, cfg);
  }

  /** Changes to how a group is doing, not to what it holds. */
  lemma BooksGroup(s: State, cfg: RiskConfig, g: nat, grp': Group)
    requires Books(s, cfg) && g in s.groups && GroupKept(s.groups[g], grp') && SameRounds(s.groups[g], grp')
    ensures Books(s.(groups := s.groups[g := grp']), cfg)
  {
    hide Structure, LedgerInv, FillsInv, MoneyInv, RoundsInv, GroupsSame, GroupsStay, ResidualsStay, SameRounds;
    var groups' := s.groups[g := grp'];
    GroupIsKept(s.groups, g, grp');
    assert OrdersStay(s.desk, s.desk, s.groups) by { OrdersReflexive(s.desk, s.groups, s.nextGroup); }
    StructureStays(s.desk, s.groups, s.desk, groups', s.nextGroup);
    LedgerStays(s.desk.orders, s.groups, s.money.portfolios, s.desk.orders, groups', s.money.portfolios);
    FillsStay(s.groups, groups', s.trades, s.nextGroup);
    RoundsSame(s.wire.log, s.groups, groups', s.nextGroup, cfg);
  }

  lemma OrdersReflexive(d: Desk, groups: map<nat, Group>, nextGroup: nat)
    requires Structure(d, groups, nextGroup)
    ensures OrdersStay(d, d, groups)
  {
    forall id | id in d.orders ensures StaysPut(d.orders[id], d.orders[id]) {
      assert OrderPlaced(id, d.orders[id], groups);
    }
  }

  lemma GroupIsKept(groups: map<nat, Group>, g: nat, grp': Group)
    requires g in groups && GroupKept(groups[g], grp')
    ensures groups[g := grp'].Keys == groups.Keys
    ensures GroupsStay(groups, groups[g := grp']) && GroupsSame(groups, groups[g := grp'])
    ensures ResidualsStay(groups, groups[g := grp'])
    ensures SameRounds(groups[g], grp') ==> forall h :: h in groups ==> SameRounds(groups[h], groups[g := grp'][h])
  {
  }

  /** Money that reserves and counts the same. */
  lemma BooksMoney(s: State, cfg: RiskConfig, m': Money)
    requires Books(s, cfg) && MoneyInv(m', cfg) && PortfoliosSame(s.money.portfolios, m'.portfolios)
    ensures Books(s.(money := m'), cfg)
  {
    hide Structure, LedgerInv, FillsInv, MoneyInv, RoundsInv, PortfoliosSame;
    LedgerStays(s.desk.orders, s.groups, s.money.portfolios, s.desk.orders, s.groups, m'.portfolios);
  }

  lemma EnsureSame(m: Money, cfg: RiskConfig, k: nat)
    ensures PortfoliosSame(m.portfolios, EnsurePortfolio(m, cfg, k).portfolios)
  {
    hide EnsurePortfolio;
    EnsureShape(m, cfg, k);
  }

  lemma OpenOrdersSame(m: Money, cfg: RiskConfig, k: nat, n: nat)
    ensures PortfoliosSame(m.portfolios, OpenOrders(m, cfg, k, n).portfolios)
  {
    hide EnsurePortfolio;
    EnsureShape(m, cfg, k);
  }

  lemma RecomputeSame(m: Money, cfg: RiskConfig)
    ensures PortfoliosSame(m.portfolios, RecomputeAll(m, cfg).portfolios)
  {
    hide Available, GlobalReserved;
  }

  lemma SameTrans(a: map<nat, Portfolio>, b: map<nat, Portfolio>, c: map<nat, Portfolio>)
    requires PortfoliosSame(a, b) && PortfoliosSame(b, c)
    ensures PortfoliosSame(a, c)
  {
  }

  // ---------------------------------------------------------- releasing a group

  lemma BooksRelease(s: State, cfg: RiskConfig, g: nat)
    requires Books(s, cfg) && g in s.groups
    ensures Books(ReleaseGroup(s, cfg, g, s.groups[g]), cfg)
  {
    var grp := s.groups[g];
    var s' := ReleaseGroup(s, cfg, g, grp);
    if grp.released {
      assert s' == s;
    } else {
      var grp' := ReleasedGroup(s.money, cfg, grp);
      ReleasedShape(s.groups, g, grp');
      ReleaseEffect(s.money, cfg, grp);
      hide Structure, LedgerInv, FillsInv, MoneyInv, RoundsInv, GroupsStay, ResidualsStay, SameRounds, ReleaseMoney,
           ReleasedGroup;
      OrdersReflexive(s.desk, s.groups, s.nextGroup);
      StructureStays(s.desk, s.groups, s.desk, s'.groups, s.nextGroup);
      GroupReleased(s.desk.orders, s.groups, s.money.portfolios, g, grp', s'.money.portfolios);
      FillsStay(s.groups, s'.groups, s.trades, s.nextGroup);
      RoundsSame(s.wire.log, s.groups, s'.groups, s.nextGroup, cfg);
      ReleaseMoneyInv(s.money, cfg, grp);
    }
  }

  lemma ReleasedShape(groups: map<nat, Group>, g: nat, grp': Group)
    requires g in groups && grp' == groups[g].(reserved := grp'.reserved, released := true)
    ensures groups[g := grp'].Keys == groups.Keys
    ensures GroupsStay(groups, groups[g := grp']) && ResidualsStay(groups, groups[g := grp'])
    ensures forall h :: h in groups ==> SameRounds(groups[h], groups[g := grp'][h])
  {
  }

  /** What releasing does to reserved capital and group counts. */
  lemma ReleaseEffect(m: Money, cfg: RiskConfig, grp: Group)
    requires MoneyInv(m, cfg)
    ensures var m' := ReleaseMoney(m, cfg, grp);
            && (forall k: nat :: ReservedOf(m'.portfolios, k) ==
                  ReservedOf(m.portfolios, k) - if k == grp.context.strategy
                  then Min(ReservedOf(m.portfolios, k), grp.reserved) else 0)
            && (forall k: nat :: ReservedOf(m'.portfolios, k) <= ReservedOf(m.portfolios, k))
            && (forall k: nat :: ActiveOf(m'.portfolios, k) ==
                  ActiveOf(m.portfolios, k) - if k == grp.context.strategy && ActiveOf(m.portfolios, k) > 0 then 1
                  else 0)
  {
    hide EnsurePortfolio, MoneyInv, StoreOne;
    var k := grp.context.strategy;
    if k in m.portfolios { NonNegativeReserved(m, cfg, k); }
    EnsureShape(m, cfg, k);
    var m1 := EnsurePortfolio(m, cfg, k);
    var p := PortfolioOf(m1, cfg, k);
    StoreOneShape(m1, cfg, k, p.(reserved := p.reserved - Releasable(m, cfg, grp),
                                 activeGroups := if p.activeGroups > 0 then p.activeGroups - 1 else 0));
  }

  lemma NonNegativeReserved(m: Money, cfg: RiskConfig, k: nat)
    requires MoneyInv(m, cfg) && k in m.portfolios
    ensures 0 <= m.portfolios[k].reserved
  {
    Standing(m, cfg, k);
  }

  lemma StoreOneShape(m: Money, cfg: RiskConfig, k: nat, p: Portfolio)
    ensures var m' := StoreOne(m, cfg, k, p);
            && m'.portfolios.Keys == m.portfolios.Keys + {k}
            && m'.portfolios[k] == p.(available := m'.portfolios[k].available)
            && (forall j :: j in m.portfolios && j != k ==> m'.portfolios[j] == m.portfolios[j])
            && m'.positions == m.positions && m'.reconciled == m.reconciled && m'.balance == m.balance
  {
    hide Available, GlobalReserved;
  }

  // ------------------------------------------------------------ repair passes

  lemma BooksPassed(s: State, cfg: RiskConfig, g: nat, r: Repair)
    requires Books(s, cfg) && g in s.groups && PassFacts(s.desk, s.wire, cfg, g, s.groups[g], r)
    ensures Books(s.(desk := r.desk, wire := r.wire, groups := s.groups[g := r.group]), cfg)
  {
    var s' := s.(desk := r.desk, wire := r.wire, groups := s.groups[g := r.group]);
    assert RoundsKept(s.wire.log, g, s.groups[g], cfg);
    GroupIsKept(s.groups, g, r.group);
    DeskGrowsStays(s.desk, r.desk, s.groups, g, s.nextGroup);
    hide LedgerInv, FillsInv, MoneyInv, RoundsInv, GroupsSame, GroupsStay, ResidualsStay, DeskGrows, OneRound,
         OrdersStay, OrdersSame;
    assert 0 < g < s.nextGroup;
    hide Structure;
    StructureStays(s.desk, s.groups, r.desk, s'.groups, s.nextGroup);
    LedgerStays(s.desk.orders, s.groups, s.money.portfolios, r.desk.orders, s'.groups, s.money.portfolios);
    FillsStay(s.groups, s'.groups, s.trades, s.nextGroup);
    RoundsOfPass(s.wire, r.wire, s.groups, g, r.group, s.nextGroup, cfg);
  }

  lemma DeskGrowsStays(d: Desk, d': Desk, groups: map<nat, Group>, g: nat, nextGroup: nat)
    requires Structure(d, groups, nextGroup) && DeskGrows(d, d', g) && g in groups
    ensures OrdersStay(d, d', groups) && OrdersSame(d.orders, d'.orders)
  {
    forall id | id in d.orders ensures StaysPut(d.orders[id], d'.orders[id]) {
      assert OrderPlaced(id, d.orders[id], groups) && SameRole(d.orders[id], d'.orders[id]);
    }
  }

  lemma BooksGate(s: State, cfg: RiskConfig, t: Gate)
    requires Books(s, cfg)
    ensures Books(s.(gate := t), cfg)
  {
    hide Structure, LedgerInv, FillsInv, MoneyInv, RoundsInv;
  }

  lemma BooksApply(s: State, cfg: RiskConfig, g: nat, r: Repair)
    requires Books(s, cfg) && g in s.groups && PassFacts(s.desk, s.wire, cfg, g, s.groups[g], r)
    ensures Books(ApplyRepair(s, cfg, g, r), cfg)
  {
    hide Books, PassFacts, ReleaseGroup, OpenOrders, AnyBroken;
    BooksPassed(s, cfg, g, r);
    var s0 := s.(desk := r.desk, wire := r.wire, groups := s.groups[g := r.group]);
    var gate := if r.latch then Latch(s.gate) else s.gate;
    var t := if r.reconcile then gate.(reconcileNeeded := cfg.required) else gate;
    BooksGate(s0, cfg, t);
    var s1 := s0.(gate := t);
    if r.done {
      BooksRelease(s1, cfg, g);
      var s2 := ReleaseGroup(s1, cfg, g, r.group);
      BooksGate(s2, cfg, s2.gate.(incident := AnyBroken(s2.groups)));
    } else if r.placed > 0 {
      BooksOpened(s1, cfg, r.group.context.strategy, r.placed);
    }
  }

  lemma BooksOpened(s: State, cfg: RiskConfig, k: nat, n: nat)
    requires Books(s, cfg)
    ensures Books(s.(money := OpenOrders(s.money, cfg, k, n)), cfg)
  {
    hide MoneyInv, Structure, LedgerInv, FillsInv, RoundsInv, PortfoliosSame;
    OpenOrdersInv(s.money, cfg, k, n);
    OpenOrdersSame(s.money, cfg, k, n);
    BooksMoney(s, cfg, OpenOrders(s.money, cfg, k, n));
  }

  /** continue_group_repair() on a stored group. */
  lemma BooksContinue(s: State, q: Queue, cfg: RiskConfig, g: nat)
    requires Books(s, cfg) && g in s.groups
    ensures Books(ContinueRepair(s, q, cfg, g, s.groups[g]), cfg)
  {
    var grp := s.groups[g];
    if grp.released || grp.state.RepairFailed? {
      assert s.groups[g := grp] == s.groups;
    } else {
      assert IdsBelow(s.desk);
      hide Books, PassFacts, ApplyRepair, RepairPass;
      RepairPassFacts(s.desk, s.wire, q, cfg, g, grp);
      BooksApply(s, cfg, g, RepairPass(s.desk, s.wire, q, cfg, g, grp));
    }
  }

  /** A pass only looks at the group it is given, so the group may be stored first. */
  lemma ContinueStored(s: State, q: Queue, cfg: RiskConfig, g: nat, grp: Group)
    ensures ContinueRepair(s, q, cfg, g, grp) == ContinueRepair(s.(groups := s.groups[g := grp]), q, cfg, g, grp)
  {
    hide RepairPass, OpenOrders, ReleasedGroup, ReleaseMoney, AnyBroken;
    var r := RepairPass(s.desk, s.wire, q, cfg, g, grp);
    assert s.groups[g := grp][g := r.group] == s.groups[g := r.group];
    assert s.groups[g := grp][g := grp] == s.groups[g := grp];
  }

  /** continue_group_repair() after its caller changed how the group is doing. */
  lemma BooksContinueWith(s: State, q: Queue, cfg: RiskConfig, g: nat, grp: Group)
    requires Books(s, cfg) && g in s.groups && GroupKept(s.groups[g], grp) && SameRounds(s.groups[g], grp)
    ensures Books(ContinueRepair(s, q, cfg, g, grp), cfg)
  {
    hide Books, ContinueRepair, GroupKept, SameRounds;
    BooksGroup(s, cfg, g, grp);
    ContinueStored(s, q, cfg, g, grp);
    BooksContinue(s.(groups := s.groups[g := grp]), q, cfg, g);
  }

  lemma BooksBegin(s: State, q: Queue, cfg: RiskConfig, g: nat, was: Group, reason: FailureReason)
    requires Books(s, cfg) && g in s.groups && GroupKept(s.groups[g], was) && SameRounds(s.groups[g], was)
    ensures Books(BeginRepair(s, q, cfg, g, was, reason), cfg)
  {
    hide Books, ContinueRepair, HasResidual;
    BooksGate(s, cfg, Latch(s.gate));
    var uncertain := was.uncertain || reason.VenueStateUncertain?;
    var grp := was.(uncertain := uncertain, failure := reason, exposed := HasResidual(was.legs),
                    state := UncertainOr(uncertain, RepairRequired));
    BooksContinueWith(s.(gate := Latch(s.gate)), q, cfg, g, grp);
  }

  /** Releasing a group its caller just settled. */
  lemma BooksSettle(s: State, cfg: RiskConfig, g: nat, grp: Group)
    requires Books(s, cfg) && g in s.groups && GroupKept(s.groups[g], grp) && SameRounds(s.groups[g], grp)
    ensures Books(ReleaseGroup(s, cfg, g, grp), cfg)
  {
    hide Books, ReleaseGroup, GroupKept, SameRounds;
    BooksGroup(s, cfg, g, grp);
    BooksRelease(s.(groups := s.groups[g := grp]), cfg, g);
    ReleaseStored(s, cfg, g, grp);
  }

  /** Releasing only looks at the group it is given, so the group may be stored first. */
  lemma ReleaseStored(s: State, cfg: RiskConfig, g: nat, grp: Group)
    ensures ReleaseGroup(s, cfg, g, grp) == ReleaseGroup(s.(groups := s.groups[g := grp]), cfg, g, grp)
  {
    hide ReleasedGroup, ReleaseMoney;
    var after := ReleasedGroup(s.money, cfg, grp);
    assert s.groups[g := grp][g := grp] == s.groups[g := grp] && s.groups[g := grp][g := after] == s.groups[g := after];
  }

  lemma BooksSettleGroup(s: State, q: Queue, cfg: RiskConfig, g: nat)
    requires Books(s, cfg) && g in s.groups
    ensures Books(SettleGroup(s, q, cfg, g, s.groups[g]), cfg)
  {
    hide Books, BeginRepair, ReleaseGroup, HasResidual, AllLegs, SomeLeg, LegInDoubt;
    var was := s.groups[g];
    var grp := was.(exposed := HasResidual(was.legs));
    BooksBegin(s, q, cfg, g, grp, VenueStateUncertain);
    BooksBegin(s, q, cfg, g, grp, LegPartiallyFilled);
    BooksSettle(s, cfg, g, grp.(state := Completed, failure := NoFailure, exposed := false));
    BooksSettle(s, cfg, g, grp.(state := Aborted, failure := NoFailure, exposed := false));
    BooksGroup(s, cfg, g, grp.(state := GroupPartiallyFilled));
    BooksGroup(s, cfg, g, grp.(state := GroupWorking));
  }

  lemma BooksUpdate(s: State, q: Queue, cfg: RiskConfig, id: nat)
    requires Books(s, cfg)
    ensures Books(UpdateGroup(s, q, cfg, id), cfg)
  {
    hide Books, ContinueRepair, SettleGroup;
    if id in s.desk.orders && s.desk.orders[id].group in s.groups {
      var o := s.desk.orders[id];
      var was := s.groups[o.group];
      BooksContinueWith(s, q, cfg, o.group, was.(uncertain := was.uncertain || o.state.Uncertain?));
      BooksSettleGroup(s, q, cfg, o.group);
    }
  }

  lemma {:induction false} BooksService(s: State, q: Queue, cfg: RiskConfig, gs: seq<nat>)
    requires Books(s, cfg)
    ensures Books(ServiceEach(s, q, cfg, gs), cfg)
    decreases |gs|
  {
    hide Books, ContinueRepair;
    if gs != [] {
      if gs[0] in s.groups && NeedsService(s.groups[gs[0]].state) {
        BooksContinue(s, q, cfg, gs[0]);
        BooksService(ContinueRepair(s, q, cfg, gs[0], s.groups[gs[0]]), q, cfg, gs[1..]);
      } else {
        BooksService(s, q, cfg, gs[1..]);
      }
    }
  }
}
