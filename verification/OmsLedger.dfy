/** The three-level reservation ledger and the exactly-once fill accounting. */
module OmsLedger {
  import opened Sums
  import opened OmsTypes
  import opened Oms
  import opened OmsRepair

  // --------------------------------------------------------------- structure

  /** An order of a group is one of its repair orders, or exactly the leg it says it is. */
  predicate OrderPlaced(id: nat, o: Order, groups: map<nat, Group>) {
    && o.reserved >= 0
    && (o.repair ==> o.group in groups && o.reserved == 0)
    && (o.group != 0 && !o.repair ==>
          o.group in groups && o.leg < |groups[o.group].legs| && groups[o.group].legs[o.leg].request == id)
  }

  predicate LegPlaced(orders: map<nat, Order>, g: nat, i: nat, leg: Leg) {
    leg.request in orders && orders[leg.request].group == g && orders[leg.request].leg == i
        && !orders[leg.request].repair
  }

  predicate LegsPlaced(orders: map<nat, Order>, g: nat, legs: seq<Leg>) {
    forall i :: 0 <= i < |legs| ==> LegPlaced(orders, g, i, legs[i])
  }

  predicate Structure(d: Desk, groups: map<nat, Group>, nextGroup: nat) {
    && IdsBelow(d) && 0 < d.nextRequest && 0 < nextGroup
    && (forall g :: g in groups ==> 0 < g < nextGroup && LegsPlaced(d.orders, g, groups[g].legs))
    && (forall id :: id in d.orders ==> 0 < id && OrderPlaced(id, d.orders[id], groups))
  }

  /** Legs keep their orders. */
  predicate SameRequests(legs: seq<Leg>, legs': seq<Leg>) {
    |legs'| == |legs| && forall i :: 0 <= i < |legs| ==> legs'[i].request == legs[i].request
  }

  predicate GroupsStay(groups: map<nat, Group>, groups': map<nat, Group>) {
    groups'.Keys == groups.Keys && forall g :: g in groups ==> SameRequests(groups[g].legs, groups'[g].legs)
  }

  predicate StaysPut(o: Order, o': Order) {
    o'.group == o.group && o'.leg == o.leg && o'.repair == o.repair && 0 <= o'.reserved <= o.reserved
  }

  /** Orders keep their place and can only lose capital; new ones are capital-free repair orders. */
  predicate OrdersStay(d: Desk, d': Desk, groups: map<nat, Group>) {
    && d.nextRequest <= d'.nextRequest
    && (forall id :: id in d.orders ==> id in d'.orders && StaysPut(d.orders[id], d'.orders[id]))
    && (forall id :: id in d'.orders && id !in d.orders ==>
          d.nextRequest <= id < d'.nextRequest && d'.orders[id].repair && d'.orders[id].group in groups
              && d'.orders[id].reserved == 0)
  }

  lemma StructureStays(d: Desk, groups: map<nat, Group>, d': Desk, groups': map<nat, Group>, nextGroup: nat)
    requires Structure(d, groups, nextGroup) && OrdersStay(d, d', groups) && GroupsStay(groups, groups')
    ensures Structure(d', groups', nextGroup)
  {
    forall g | g in groups' ensures 0 < g < nextGroup && LegsPlaced(d'.orders, g, groups'[g].legs) {
      assert LegsPlaced(d.orders, g, groups[g].legs);
      forall i | 0 <= i < |groups'[g].legs| ensures LegPlaced(d'.orders, g, i, groups'[g].legs[i]) {
        assert LegPlaced(d.orders, g, i, groups[g].legs[i]);
      }
    }
    forall id | id in d'.orders ensures 0 < id && OrderPlaced(id, d'.orders[id], groups') {
      if id in d.orders { assert OrderPlaced(id, d.orders[id], groups); }
    }
  }

  // ------------------------------------------------------------------- ledger

  function HeldFor(g: nat): Order -> int { (o: Order) => if o.group == g && !o.repair then o.reserved else 0 }
  function HeldBy(k: nat): Order -> int { (o: Order) => if o.context.strategy == k then o.reserved else 0 }
  function ActiveIn(k: nat)
    : Group -> int { (grp: Group) => if !grp.released && grp.context.strategy == k then 1 else 0 }

  function ReservedOf(portfolios: map<nat, Portfolio>, k: nat)
    : int { if k in portfolios then portfolios[k].reserved else 0 }
  function ActiveOf(portfolios: map<nat, Portfolio>, k: nat)
    : int { if k in portfolios then portfolios[k].activeGroups else 0 }

  /** A group that holds capital holds exactly what its original legs hold. */
  ghost predicate Funded(orders: map<nat, Order>, g: nat, grp: Group) {
    !grp.released ==> grp.reserved == Sum(orders, HeldFor(g))
  }

  ghost predicate AllFunded(orders: map<nat, Order>, groups: map<nat, Group>) {
    forall g :: g in groups ==> Funded(orders, g, groups[g])
  }

  /** A strategy never reserves more than its orders hold. */
  ghost predicate Covered(orders: map<nat, Order>, portfolios: map<nat, Portfolio>, k: nat) {
    ReservedOf(portfolios, k) <= Sum(orders, HeldBy(k))
  }

  /** A strategy counts exactly its groups that hold capital. */
  ghost predicate Counted(groups: map<nat, Group>, portfolios: map<nat, Portfolio>, k: nat) {
    ActiveOf(portfolios, k) == Sum(groups, ActiveIn(k))
  }

  ghost predicate LedgerInv(orders: map<nat, Order>, groups: map<nat, Group>, portfolios: map<nat, Portfolio>) {
    && AllFunded(orders, groups)
    && (forall k: nat :: Covered(orders, portfolios, k))
    && (forall k: nat :: Counted(groups, portfolios, k))
  }

  /** The reserved capital of a funded group is the sum over its legs, leg by leg. */
  lemma {:induction false} LegSum(orders: map<nat, Order>, g: nat, legs: seq<Leg>)
    requires LegsPlaced(orders, g, legs)
    requires forall id :: id in orders && orders[id].group == g && !orders[id].repair ==>
               orders[id].leg < |legs| && legs[orders[id].leg].request == id
    ensures Sum(orders, HeldFor(g)) == SeqSum(legs, LegHolds(orders))
    decreases |legs|
  {
    if legs == [] {
      SumZero(orders, HeldFor(g));
    } else {
      var last := |legs| - 1;
      var id := legs[last].request;
      assert LegPlaced(orders, g, last, legs[last]);
      var rest := legs[..last];
      forall i | 0 <= i < last ensures LegPlaced(orders - {id}, g, i, rest[i]) {
        assert LegPlaced(orders, g, i, legs[i]);
      }
      assert legs == rest + [legs[last]];
      hide Sum;
      SumTake(orders, id, HeldFor(g));
      LegSum(orders - {id}, g, rest);
      SeqSumAppend(rest, [legs[last]], LegHolds(orders));
      assert SeqSum([legs[last]], LegHolds(orders)) == orders[id].reserved;
      SeqSumSame(rest, rest, LegHolds(orders - {id}), LegHolds(orders));
    }
  }

  function LegHolds(orders: map<nat, Order>): Leg -> int {
    (leg: Leg) => if leg.request in orders then orders[leg.request].reserved else 0
  }

  // ------------------------------------------------ operations on the ledger

  /** Nothing the ledger looks at changed. */
  ghost predicate LedgerSame(orders: map<nat, Order>, groups: map<nat, Group>, portfolios: map<nat, Portfolio>,
                             orders': map<nat, Order>, groups': map<nat, Group>, portfolios': map<nat, Portfolio>) {
    && OrdersSame(orders, orders') && GroupsSame(groups, groups') && PortfoliosSame(portfolios, portfolios')
  }

  predicate OrdersSame(orders: map<nat, Order>, orders': map<nat, Order>) {
    && (forall id :: id in orders ==> id in orders' && SameRole(orders[id], orders'[id]))
    && (forall id :: id in orders' && id !in orders ==> orders'[id].reserved == 0)
  }

  predicate GroupsSame(groups: map<nat, Group>, groups': map<nat, Group>) {
    && groups'.Keys == groups.Keys
    && forall g ::
      g in groups ==> groups'[g].reserved == groups[g].reserved && groups'[g].released == groups[g].released &&
                                   groups'[g].context == groups[g].context
  }

  ghost predicate PortfoliosSame(portfolios: map<nat, Portfolio>, portfolios': map<nat, Portfolio>) {
    forall k: nat ::
      ReservedOf(portfolios', k) == ReservedOf(portfolios, k) && ActiveOf(portfolios', k) == ActiveOf(portfolios, k)
  }

  lemma LedgerStays(orders: map<nat, Order>, groups: map<nat, Group>, portfolios: map<nat, Portfolio>,
                    orders': map<nat, Order>, groups': map<nat, Group>, portfolios': map<nat, Portfolio>)
    requires LedgerInv(orders, groups, portfolios)
    requires LedgerSame(orders, groups, portfolios, orders', groups', portfolios')
    ensures LedgerInv(orders', groups', portfolios')
  {
    hide Sum;
    forall g | g in groups' ensures Funded(orders', g, groups'[g]) {
      assert Funded(orders, g, groups[g]);
      SumGrows(orders, orders', HeldFor(g));
    }
    forall k: nat ensures Covered(orders', portfolios', k) {
      assert Covered(orders, portfolios, k);
      SumGrows(orders, orders', HeldBy(k));
    }
    forall k: nat ensures Counted(groups', portfolios', k) {
      assert Counted(groups, portfolios, k);
      SumSame(groups, groups', ActiveIn(k), ActiveIn(k));
    }
  }

  /** Capital leaves an order, its group and its portfolio together. */
  lemma CapitalTaken(orders: map<nat, Order>, groups: map<nat, Group>, portfolios: map<nat, Portfolio>,
                     id: nat, o': Order, taken: int, portfolios': map<nat, Portfolio>)
    requires LedgerInv(orders, groups, portfolios) && id in orders && (orders[id].repair ==> taken == 0)
    requires forall j :: j in orders ==> orders[j].reserved >= 0
    requires 0 <= taken <= orders[id].reserved && SameRole(orders[id].(reserved := orders[id].reserved - taken), o')
    requires forall k: nat :: ActiveOf(portfolios', k) == ActiveOf(portfolios, k)
    requires forall k: nat :: ReservedOf(portfolios', k) ==
               if k == o'.context.strategy then ReservedOf(portfolios, k) - Min(ReservedOf(portfolios, k), taken)
               else ReservedOf(portfolios, k)
    ensures LedgerInv(orders[id := o'], ReduceGroup(groups, o'.group, taken), portfolios')
  {
    hide Sum;
    var orders' := orders[id := o'];
    var groups' := ReduceGroup(groups, o'.group, taken);
    forall g | g in groups' ensures Funded(orders', g, groups'[g]) {
      assert Funded(orders, g, groups[g]);
      SumUpdate(orders, id, o', HeldFor(g));
      if !groups[g].released { SumBoundsPart(orders, id, HeldFor(g)); }
    }
    forall k: nat ensures Covered(orders', portfolios', k) {
      assert Covered(orders, portfolios, k);
      SumUpdate(orders, id, o', HeldBy(k));
      SumBoundsPart(orders, id, HeldBy(k));
    }
    forall k: nat ensures Counted(groups', portfolios', k) {
      assert Counted(groups, portfolios, k);
      SumSame(groups, groups', ActiveIn(k), ActiveIn(k));
    }
  }

  /** A released group no longer counts and takes its capital off the portfolio. */
  lemma GroupReleased(orders: map<nat, Order>, groups: map<nat, Group>, portfolios: map<nat, Portfolio>,
                      g: nat, grp': Group, portfolios': map<nat, Portfolio>)
    requires LedgerInv(orders, groups, portfolios) && g in groups && !groups[g].released
    requires grp'.released && grp'.context == groups[g].context
    requires forall k: nat :: ReservedOf(portfolios', k) <= ReservedOf(portfolios, k)
    requires forall k: nat :: ActiveOf(portfolios', k) ==
               ActiveOf(portfolios, k) - if k == grp'.context.strategy && ActiveOf(portfolios, k) > 0 then 1 else 0
    ensures LedgerInv(orders, groups[g := grp'], portfolios')
  {
    hide Sum;
    var groups' := groups[g := grp'];
    forall j | j in groups' ensures Funded(orders, j, groups'[j]) {
      if j != g { assert Funded(orders, j, groups[j]); }
    }
    forall k: nat ensures Covered(orders, portfolios', k) {
      assert Covered(orders, portfolios, k);
    }
    forall k: nat ensures Counted(groups', portfolios', k) {
      assert Counted(groups, portfolios, k);
      SumUpdate(groups, g, grp', ActiveIn(k));
      SumBoundsPart(groups, g, ActiveIn(k));
    }
  }

  /** A new order that holds `amount` and belongs to no group. */
  lemma SingleReserved(orders: map<nat, Order>, groups: map<nat, Group>, portfolios: map<nat, Portfolio>,
                       id: nat, o: Order, portfolios': map<nat, Portfolio>)
    requires LedgerInv(orders, groups, portfolios) && id !in orders && o.group == 0 && 0 !in groups
    requires forall k: nat :: ActiveOf(portfolios', k) == ActiveOf(portfolios, k)
    requires forall k: nat ::
               ReservedOf(portfolios', k) == ReservedOf(portfolios, k) + if k == o.context.strategy then o.reserved
               else 0
    ensures LedgerInv(orders[id := o], groups, portfolios')
  {
    hide Sum;
    var orders' := orders[id := o];
    forall g | g in groups ensures Funded(orders', g, groups[g]) {
      assert Funded(orders, g, groups[g]);
      SumUpdate(orders, id, o, HeldFor(g));
    }
    forall k: nat ensures Covered(orders', portfolios', k) {
      assert Covered(orders, portfolios, k);
      SumUpdate(orders, id, o, HeldBy(k));
    }
    forall k: nat ensures Counted(groups, portfolios', k) {
      assert Counted(groups, portfolios, k);
    }
  }

  // -------------------------------------------------------------------- fills

  function ToLeg(g: nat, i: nat): Contribution -> int {
    (c: Contribution) => if c.group == g && c.leg == i then c.lots else 0
  }

  /** The residual of a leg is the sum of what distinct trades contributed to it. */
  ghost predicate LegAccounted(trades: map<nat, Contribution>, g: nat, grp: Group, i: nat)
    requires i < |grp.legs|
  {
    !grp.overflowed ==> grp.legs[i].residual == Sum(trades, ToLeg(g, i))
  }

  ghost predicate GroupAccounted(trades: map<nat, Contribution>, g: nat, grp: Group) {
    (grp.overflowed ==> grp.uncertain) && forall i: nat :: i < |grp.legs| ==> LegAccounted(trades, g, grp, i)
  }

  ghost predicate FillsInv(groups: map<nat, Group>, trades: map<nat, Contribution>, nextGroup: nat) {
    && (forall g :: g in groups ==> GroupAccounted(trades, g, groups[g]))
    && (forall t :: t in trades ==> trades[t].group < nextGroup)
  }

  /** Groups keep their residuals and never lose their doubt. */
  predicate ResidualsStay(groups: map<nat, Group>, groups': map<nat, Group>) {
    && groups'.Keys == groups.Keys
    && forall g :: g in groups ==> SameResiduals(groups[g], groups'[g])
  }

  predicate SameResiduals(grp: Group, grp': Group) {
    && |grp'.legs| == |grp.legs| && (forall i :: 0 <= i < |grp.legs| ==> grp'.legs[i].residual == grp.legs[i].residual)
    && grp'.overflowed == grp.overflowed && (grp.uncertain ==> grp'.uncertain)
  }

  lemma FillsStay(groups: map<nat, Group>, groups': map<nat, Group>, trades: map<nat, Contribution>, nextGroup: nat)
    requires FillsInv(groups, trades, nextGroup) && ResidualsStay(groups, groups')
    ensures FillsInv(groups', trades, nextGroup)
  {
    forall g | g in groups' ensures GroupAccounted(trades, g, groups'[g]) {
      assert GroupAccounted(trades, g, groups[g]) && SameResiduals(groups[g], groups'[g]);
      forall i: nat | i < |groups'[g].legs| ensures LegAccounted(trades, g, groups'[g], i) {
        assert LegAccounted(trades, g, groups[g], i);
      }
    }
  }

  /** A new trade moves the residual of the leg it is recorded for by what it contributes, and no
      other; the overflow guard leaves the residual and marks the group. */
  lemma TradeAccounted(groups: map<nat, Group>, trades: map<nat, Contribution>, nextGroup: nat, o: Order, e: Fill,
                       t: nat)
    requires FillsInv(groups, trades, nextGroup) && t !in trades && 0 < nextGroup
    requires forall g :: g in groups ==> 0 < g < nextGroup
    ensures FillsInv(FilledGroups(groups, o, e), trades[t := Contributes(groups, o, e)], nextGroup)
  {
    var c := Contributes(groups, o, e);
    var groups' := FilledGroups(groups, o, e);
    var trades' := trades[t := c];
    assert c.group < nextGroup;
    forall g | g in groups' ensures GroupAccounted(trades', g, groups'[g]) {
      assert GroupAccounted(trades, g, groups[g]);
      FilledGroupFacts(groups, o, e, g);
      forall i: nat | i < |groups'[g].legs| ensures LegAccounted(trades', g, groups'[g], i) {
        assert LegAccounted(trades, g, groups[g], i);
        OneTrade(trades, t, c, g, i);
      }
    }
  }

  lemma OneTrade(trades: map<nat, Contribution>, t: nat, c: Contribution, g: nat, i: nat)
    requires t !in trades
    ensures Sum(trades[t := c], ToLeg(g, i)) == Sum(trades, ToLeg(g, i)) + ToLeg(g, i)(c)
  {
    hide Sum;
    SumUpdate(trades, t, c, ToLeg(g, i));
  }

  lemma FilledGroupFacts(groups: map<nat, Group>, o: Order, e: Fill, g: nat)
    requires g in groups && 0 < g
    ensures var (grp, grp') := (groups[g], FilledGroups(groups, o, e)[g]);
            && |grp'.legs| == |grp.legs| && (grp.uncertain ==> grp'.uncertain) && (grp.overflowed ==> grp'.overflowed)
            && (grp'.overflowed ==> grp'.uncertain || grp.overflowed)
            && forall i: nat :: i < |grp.legs| && !grp'.overflowed ==>
                 grp'.legs[i].residual == grp.legs[i].residual + ToLeg(g, i)(Contributes(groups, o, e))
  {
    hide SignedYesLots;
  }
}
