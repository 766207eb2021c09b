/** What the order manager remembers: the intents of its groups and, for every trade, the leg it
    filled and its signed lots. */
module OmsHistory {
  import opened Wrappers
  import opened OmsTypes
  import opened Oms
  import opened OmsBooks
  import opened OmsHandlers
  import opened OmsEgress

  /** Every remembered intent names a stored group, so a repeated intent is always recognised. */
  predicate IntentsKnown(s: State) { forall key :: key in s.byIntent ==> s.byIntent[key] in s.groups }

  /** Neither the intents nor the trades remembered changed. */
  predicate HistorySame(s: State, s': State) { s'.byIntent == s.byIntent && s'.trades == s.trades }

  lemma ContinueHistory(s: State, q: Queue, cfg: RiskConfig, g: nat, grp: Group)
    ensures HistorySame(s, ContinueRepair(s, q, cfg, g, grp))
  {
    hide RepairPass, ReleaseMoney, Releasable, OpenOrders, AnyBroken;
  }

  lemma UpdateHistory(s: State, q: Queue, cfg: RiskConfig, id: nat)
    ensures HistorySame(s, UpdateGroup(s, q, cfg, id))
  {
    hide ContinueRepair, ReleaseMoney, Releasable, AllLegs, SomeLeg, LegInDoubt, HasResidual;
    forall s1: State, g: nat, grp: Group ensures HistorySame(s1, ContinueRepair(s1, q, cfg, g, grp)) {
      ContinueHistory(s1, q, cfg, g, grp);
    }
  }

  lemma BeginHistory(s: State, q: Queue, cfg: RiskConfig, g: nat, was: Group, reason: FailureReason)
    ensures HistorySame(s, BeginRepair(s, q, cfg, g, was, reason))
  {
    hide ContinueRepair, HasResidual;
    var uncertain := was.uncertain || reason.VenueStateUncertain?;
    ContinueHistory(s.(gate := Latch(s.gate)), q, cfg, g,
                    was.(uncertain := uncertain, failure := reason, exposed := HasResidual(was.legs),
                         state := UncertainOr(uncertain, RepairRequired)));
  }

  lemma {:induction false} ServiceHistory(s: State, q: Queue, cfg: RiskConfig, gs: seq<nat>)
    ensures HistorySame(s, ServiceEach(s, q, cfg, gs))
    decreases |gs|
  {
    hide ContinueRepair;
    if gs != [] {
      if gs[0] in s.groups && NeedsService(s.groups[gs[0]].state) {
        ContinueHistory(s, q, cfg, gs[0], s.groups[gs[0]]);
        ServiceHistory(ContinueRepair(s, q, cfg, gs[0], s.groups[gs[0]]), q, cfg, gs[1..]);
      } else {
        ServiceHistory(s, q, cfg, gs[1..]);
      }
    }
  }

  lemma AccountHistory(s: State, cfg: RiskConfig, id: nat)
    ensures HistorySame(s, AccountTerminal(s, cfg, id))
  {
    hide ReduceGroup, EnsurePortfolio, RecomputeAll, Store;
  }

  lemma RestHistory(s: State, cfg: RiskConfig, r: RestResponse, target: Option<nat>)
    ensures HistorySame(s, RestOrder(s, cfg, r, target))
  {
    hide AccountTerminal, Answered;
    if target.Some? && target.value in s.desk.orders {
      var d := Linked(s.desk, target.value, r.exchange);
      AccountHistory(s.(desk := WithOrder(d, target.value, Answered(d.orders[target.value], r.kind, r.result))), cfg,
                     target.value);
    }
  }

  lemma {:induction false} RestLegsHistory(s: State, cfg: RiskConfig, b: BatchResponse, targets: seq<Option<nat>>,
                                           i: nat)
    requires |targets| == |b.responses|
    ensures HistorySame(s, RestLegs(s, cfg, b, targets, i))
    decreases |b.responses| - i
  {
    hide RestOrder;
    if i < |b.responses| {
      if b.responses[i].request == 0 {
        RestLegsHistory(s, cfg, b, targets, i + 1);
      } else {
        RestHistory(s, cfg, LegResult(b.responses[i], b.result), targets[i]);
        RestLegsHistory(RestOrder(s, cfg, LegResult(b.responses[i], b.result), targets[i]), cfg, b, targets, i + 1);
      }
    }
  }

  lemma BatchHistory(s: State, q: Queue, cfg: RiskConfig, b: BatchResponse, targets: seq<Option<nat>>)
    requires |targets| == |b.responses|
    ensures HistorySame(s, OnBatch(s, q, cfg, b, targets))
  {
    hide RestLegs, BeginRepair, UpdateGroup;
    var s1 := RestLegs(s, cfg, b, targets, 0);
    RestLegsHistory(s, cfg, b, targets, 0);
    if b.group in s1.groups && s1.groups[b.group].legs != [] {
      BeginHistory(s1, q, cfg, b.group, s1.groups[b.group].(uncertain := true), VenueStateUncertain);
      UpdateHistory(s1, q, cfg, s1.groups[b.group].legs[0].request);
    }
  }

  lemma AnswerHistory(s: State, q: Queue, cfg: RiskConfig, ev: Event)
    requires (ev.UserOrderArrives? || ev.RestArrives?) && Enabled(s, cfg, ev)
    ensures HistorySame(s, Step(s, q, cfg, ev))
  {
    hide UpdateGroup, AccountTerminal, RestOrder, Linked, UserOrderApplied, Resolves;
    match ev
    case RestArrives(r, target) =>
      RestHistory(s, cfg, r, target);
      if target.Some? { UpdateHistory(RestOrder(s, cfg, r, target), q, cfg, target.value); }
    case UserOrderArrives(e) =>
      var found := FindRecord(s.desk, e.client, e.exchange);
      if found.Some? && found.value in Linked(s.desk, found.value, e.exchange).orders {
        var id := found.value;
        var d := Linked(s.desk, id, e.exchange);
        var s1 := s.(desk := WithOrder(d, id, UserOrderApplied(d.orders[id], e)));
        AccountHistory(s1, cfg, id);
        UpdateHistory(AccountTerminal(s1, cfg, id), q, cfg, id);
      }
  }

  // ------------------------------------------------------------- fills and trades

  /** The order manager knows the order a fill with a trade id is for. */
  predicate Recognised(s: State, e: Fill) { e.trade.Some? && FindRecord(s.desk, e.client, e.exchange).Some? }

  /** The leg a fill is for and its signed YES lots. */
  function ContributionOf(s: State, e: Fill): Contribution
    requires Recognised(s, e)
  {
    Contributes(s.groups, s.desk.orders[FindRecord(s.desk, e.client, e.exchange).value], e)
  }

  /** The trades remembered after an event: a fill of a known order adds its trade once. */
  function TradesAfter(s: State, ev: Event): map<nat, Contribution> {
    if ev.FillArrives? && Recognised(s, ev.fill) && ev.fill.trade.value !in s.trades then
      s.trades[ev.fill.trade.value := ContributionOf(s, ev.fill)]
    else s.trades
  }

  /** What is recorded of a fill does not depend on what the fill does to the order's record. */
  lemma SameContribution(groups: map<nat, Group>, d: Desk, id: nat, e: Fill)
    requires id in d.orders
    ensures Contributes(groups, FilledOrder(Linked(d, id, e.exchange).orders[id], e), e) ==
            Contributes(groups, d.orders[id], e)
  {
  }

  lemma FillTrades(s: State, q: Queue, cfg: RiskConfig, e: Fill)
    ensures OnFill(s, q, cfg, e).byIntent == s.byIntent
    ensures OnFill(s, q, cfg, e).trades == TradesAfter(s, FillArrives(e))
  {
    hide UpdateGroup, AccountTerminal, AccountFill, Linked, FilledOrder, Contributes;
    var found := FindRecord(s.desk, e.client, e.exchange);
    if found.Some? {
      var id := found.value;
      var d := Linked(s.desk, id, e.exchange);
      assert id in d.orders by { LinkedHas(s.desk, id, e.exchange); }
      SameContribution(s.groups, s.desk, id, e);
      if e.trade.Some? && e.trade.value !in s.trades {
        var s1 := RecordTrade(s, d, id, e);
        FillHistory(s1, cfg, id, e);
        AccountHistory(AccountFill(s1, cfg, id, e), cfg, id);
        UpdateHistory(AccountTerminal(AccountFill(s1, cfg, id, e), cfg, id), q, cfg, id);
      }
    }
  }

  lemma LinkedHas(d: Desk, id: nat, exchange: nat)
    requires id in d.orders
    ensures id in Linked(d, id, exchange).orders
  {
  }

  lemma FillHistory(s: State, cfg: RiskConfig, id: nat, e: Fill)
    ensures HistorySame(s, AccountFill(s, cfg, id, e))
  {
    hide WellFormedFill, FilledGroups, ReduceGroup, FilledMoney, EnsurePortfolio, FillStops;
  }

  lemma PlainHistory(s: State, q: Queue, cfg: RiskConfig, ev: Event)
    requires Enabled(s, cfg, ev)
    requires !(ev.UserOrderArrives? || ev.FillArrives? || ev.RestArrives? || ev.BatchArrives? || ev.ServiceIncidents?
               || ev.GroupArrives?)
    ensures HistorySame(s, Step(s, q, cfg, ev))
  {
    hide EnsurePortfolio, RecomputeAll, OpenOrders, Store, EmitCancel, CancelEach, VenuePositionApplied,
         AdoptPositions, VenueByMarket,
         JudgeNewOrder, ReconciliationDue, Enumerates, Available;
  }

  /** Every step remembers exactly the trades of the fills it was given, and intents only grow with groups. */
  lemma HistoryStep(s: State, q: Queue, cfg: RiskConfig, ev: Event)
    requires Enabled(s, cfg, ev)
    ensures Step(s, q, cfg, ev).trades == TradesAfter(s, ev)
    ensures !ev.GroupArrives? ==> Step(s, q, cfg, ev).byIntent == s.byIntent
  {
    hide OnNewOrder, OnCancel, OnModify, OnGroup, OnRest, OnBatch, OnUserOrder, OnFill, OnPosition, OnSnapshot,
         OnUniverse, ServiceEach, Enabled, OnAllow, OnDisable, OnCancelAll, MaybeReconcile;
    match ev
    case GroupArrives(intent, now, slots) => GroupTrades(s, q, cfg, intent, now, slots);
    case BatchArrives(b, targets) => BatchTargets(s, cfg, b, targets); BatchHistory(s, q, cfg, b, targets);
    case ServiceIncidents(gs) => ServiceHistory(s, q, cfg, gs);
    case UserOrderArrives(e) => AnswerHistory(s, q, cfg, ev);
    case RestArrives(r, target) => AnswerHistory(s, q, cfg, ev);
    case FillArrives(e) => FillTrades(s, q, cfg, e);
    case _ => PlainHistory(s, q, cfg, ev);
  }

  lemma GroupTrades(s: State, q: Queue, cfg: RiskConfig, intent: GroupIntent, now: nat, slots: Option<int>)
    ensures OnGroup(s, q, cfg, intent, now, slots).trades == s.trades
  {
    hide OpenOrders, Reserve, ReleaseMoney, WithLegs, LegCommands, FreshGroup, JudgeGroup, Send;
  }

  lemma IntentsStep(s: State, q: Queue, cfg: RiskConfig, ev: Event)
    requires Books(s, cfg) && IntentsKnown(s) && Enabled(s, cfg, ev)
    ensures IntentsKnown(Step(s, q, cfg, ev))
  {
    hide Books, OnGroup, Enabled, Step, Count;
    EgressStep(s, q, cfg, ev);
    var s' := Step(s, q, cfg, ev);
    forall g | g in s.groups ensures g in s'.groups { assert DoubtKept(s, s', g); }
    HistoryStep(s, q, cfg, ev);
    if ev.GroupArrives? {
      GroupStep(s, q, cfg, ev);
      GroupIntents(s, q, cfg, ev.intent, ev.at, ev.slots);
    }
  }

  lemma GroupStep(s: State, q: Queue, cfg: RiskConfig, ev: Event)
    requires ev.GroupArrives?
    ensures Enabled(s, cfg, ev) && Step(s, q, cfg, ev) == OnGroup(s, q, cfg, ev.intent, ev.at, ev.slots)
  {
    hide OnGroup;
  }

  lemma GroupIntents(s: State, q: Queue, cfg: RiskConfig, intent: GroupIntent, now: nat, slots: Option<int>)
    requires IntentsKnown(s)
    ensures IntentsKnown(OnGroup(s, q, cfg, intent, now, slots))
  {
    hide OpenOrders, Reserve, ReleaseMoney, WithLegs, LegCommands, FreshGroup, JudgeGroup, Send;
  }
}
