/** What goes out to the venue: during an execution incident only cancels, reduce-only repairs
    and reconciliation requests; for a group in doubt no repair order ever again; and every repair
    order takes back exactly what the accounted trades left on its leg. */
module OmsEgress {
  import opened Wrappers
  import opened Sums
  import opened OmsTypes
  import opened Oms
  import opened OmsRepair
  import opened OmsMoney
  import opened OmsLedger
  import opened OmsBooks
  import opened OmsSteps
  import opened OmsHandlers

  predicate SafeCommand(c: Command) { c.Cancel? || (c.Submit? && c.reduceOnly) || c.RequestReconciliation? }

  /** Doubt about a group never clears, and while it lasts no repair order is submitted. */
  predicate DoubtKept(s: State, s': State, g: nat)
    requires g in s.groups
  {
    && g in s'.groups
    && (s.groups[g].uncertain ==>
          s'.groups[g].uncertain && Count(s'.wire.log, IsSubmitOf(g)) == Count(s.wire.log, IsSubmitOf(g)))
  }

  predicate Doubt(s: State, s': State) { forall g :: g in s.groups ==> DoubtKept(s, s', g) }

  /** A repair order names a leg of its group and is signed as the negation of what the accounted
      trades left on that leg. */
  ghost predicate TakesBack(c: Command, groups: map<nat, Group>, trades: map<nat, Contribution>)
    requires c.Submit?
  {
    var (g, i) := (c.repairOf, c.order.context.leg);
    && g in groups && i < |groups[g].legs|
    && SignedYesLots(c.order.outcome, c.order.action, c.order.quantity) == Some(-Sum(trades, ToLeg(g, i)))
  }

  /** Any command, as long as it takes back exactly if it is a repair order. */
  ghost function Repays(groups: map<nat, Group>, trades: map<nat, Contribution>): Command -> bool {
    (c: Command) => c.Submit? && c.reduceOnly ==> TakesBack(c, groups, trades)
  }

  ghost predicate Tame(s: State, s': State) {
    && Emits(s.wire, s'.wire, SafeCommand) && Emits(s.wire, s'.wire, Repays(s'.groups, s'.trades))
    && Doubt(s, s')
  }

  /** Neither trades nor the sizes of groups changed. */
  predicate SameLedger(s: State, s': State) {
    s'.trades == s.trades && forall g :: g in s.groups ==> g in s'.groups && |s'.groups[g].legs| == |s.groups[g].legs|
  }

  lemma RepaysLater(w: Wire, s: State, s': State)
    requires Emits(w, s.wire, Repays(s.groups, s.trades)) && SameLedger(s, s')
    ensures Emits(w, s.wire, Repays(s'.groups, s'.trades))
  {
    hide Sum, SignedYesLots;
    forall i | |w.log| <= i < |s.wire.log| ensures Repays(s'.groups, s'.trades)(s.wire.log[i]) {
      assert Repays(s.groups, s.trades)(s.wire.log[i]);
    }
  }

  lemma RepaysNothing(w: Wire, s': State)
    requires Emits(w, s'.wire, NoRepair)
    ensures Emits(w, s'.wire, Repays(s'.groups, s'.trades))
  {
    hide TakesBack;
    forall i | |w.log| <= i < |s'.wire.log| ensures Repays(s'.groups, s'.trades)(s'.wire.log[i]) {
      assert NoRepair(s'.wire.log[i]);
    }
  }

  lemma TameTrans(s: State, s1: State, s2: State)
    requires Tame(s, s1) && Tame(s1, s2) && (s1.wire == s.wire || SameLedger(s1, s2))
    ensures Tame(s, s2)
  {
    hide Count, Emits, Repays;
    EmitsTrans(s.wire, s1.wire, s2.wire, SafeCommand);
    if s1.wire != s.wire {
      RepaysLater(s.wire, s1, s2);
      EmitsTrans(s.wire, s1.wire, s2.wire, Repays(s2.groups, s2.trades));
    }
    forall g | g in s.groups ensures DoubtKept(s, s2, g) {
      assert DoubtKept(s, s1, g) && DoubtKept(s1, s2, g);
    }
  }

  /** Nothing is sent and no doubt clears. */
  predicate Silent(s: State, s': State) {
    s'.wire == s.wire && forall g ::
      g in s.groups ==> g in s'.groups && (s.groups[g].uncertain ==> s'.groups[g].uncertain)
  }

  lemma SilentIsTame(s: State, s': State)
    requires Silent(s, s')
    ensures Tame(s, s')
  {
    hide Count, Repays;
  }

  /** Commands that repair nothing. */
  lemma UnrelatedDoubt(s: State, s': State)
    requires Emits(s.wire, s'.wire, NoRepair) && forall g ::
               g in s.groups ==> 0 < g && g in s'.groups && (s.groups[g].uncertain ==> s'.groups[g].uncertain)
    ensures Doubt(s, s')
  {
    hide Count, Emits;
    forall g | g in s.groups ensures DoubtKept(s, s', g) {
      CountGrows(s.wire, s'.wire, NoRepair, IsSubmitOf(g));
    }
  }

  // ------------------------------------------------------------- repair passes

  lemma PassEmits(w: Wire, w': Wire, g: nat, grp: Group, grp': Group)
    requires OneRound(w, w', g, grp, grp')
    ensures Emits(w, w', SafeCommand)
    ensures forall h: nat :: h != g || grp.uncertain ==> Count(w'.log, IsSubmitOf(h)) == Count(w.log, IsSubmitOf(h))
  {
    hide Count;
    if |w'.log| != |w.log| {
      forall h: nat | h != g || grp.uncertain ensures Count(w'.log, IsSubmitOf(h)) == Count(w.log, IsSubmitOf(h)) {
        if h != g { PassElsewhere(w, w', g, grp, grp', h); } else { CountGrows(w, w', IsCancelOf(g), IsSubmitOf(h)); }
      }
    }
  }

  /** The round of a group whose residuals are accounted takes back exactly what they say. */
  lemma PassRepays(w: Wire, w': Wire, g: nat, grp: Group, grp': Group, groups: map<nat, Group>,
                   trades: map<nat, Contribution>)
    requires OneRound(w, w', g, grp, grp') && GroupAccounted(trades, g, grp) && g in groups
    requires |groups[g].legs| == |grp.legs|
    ensures Emits(w, w', Repays(groups, trades))
  {
    hide Sum, SignedYesLots;
    forall i | |w.log| <= i < |w'.log| && w'.log[i].Submit? ensures Repays(groups, trades)(w'.log[i]) {
      var c := w'.log[i];
      assert UndoesLegs(g, grp.legs)(c);
      assert LegAccounted(trades, g, grp, c.order.context.leg);
    }
  }

  lemma ApplyShape(s: State, cfg: RiskConfig, g: nat, r: Repair)
    requires g in s.groups
    ensures var s' := ApplyRepair(s, cfg, g, r);
            && s'.wire == r.wire && s'.groups.Keys == s.groups.Keys && s'.groups[g].uncertain == r.group.uncertain
            && s'.trades == s.trades && s'.groups[g].legs == r.group.legs
            && forall h :: h in s.groups && h != g ==> s'.groups[h] == s.groups[h]
  {
    hide ReleaseMoney, Releasable, OpenOrders, AnyBroken;
  }

  /** A group that may be repaired: as stored, up to state, failure and doubt, with its residuals accounted. */
  ghost predicate Repairable(s: State, g: nat, grp: Group) {
    && IdsBelow(s.desk) && g in s.groups && (s.groups[g].uncertain ==> grp.uncertain)
    && |grp.legs| == |s.groups[g].legs| && GroupAccounted(s.trades, g, grp)
  }

  lemma BooksRepairable(s: State, cfg: RiskConfig, g: nat, grp: Group)
    requires Books(s, cfg) && g in s.groups && grp.legs == s.groups[g].legs && grp.overflowed == s.groups[g].overflowed
    requires s.groups[g].uncertain ==> grp.uncertain
    ensures Repairable(s, g, grp)
  {
    hide LedgerInv, MoneyInv, RoundsInv, Sum;
    assert GroupAccounted(s.trades, g, s.groups[g]);
    forall i: nat | i < |grp.legs| ensures LegAccounted(s.trades, g, grp, i) {
      assert LegAccounted(s.trades, g, s.groups[g], i);
    }
  }

  lemma TameContinue(s: State, q: Queue, cfg: RiskConfig, g: nat, grp: Group)
    requires Repairable(s, g, grp)
    ensures Tame(s, ContinueRepair(s, q, cfg, g, grp)) && SameLedger(s, ContinueRepair(s, q, cfg, g, grp))
  {
    hide Count, RepairPass, ApplyRepair, Emits, DeskGrows, OneRound, RoundsBounded, HasResidual, Repays, GroupAccounted;
    var s' := ContinueRepair(s, q, cfg, g, grp);
    if grp.released || grp.state.RepairFailed? {
      SilentIsTame(s, s');
    } else {
      var r := RepairPass(s.desk, s.wire, q, cfg, g, grp);
      RepairPassFacts(s.desk, s.wire, q, cfg, g, grp);
      PassEmits(s.wire, r.wire, g, grp, r.group);
      ApplyShape(s, cfg, g, r);
      PassRepays(s.wire, r.wire, g, grp, r.group, s'.groups, s.trades);
      forall h | h in s.groups ensures DoubtKept(s, s', h) {}
    }
  }

  lemma TameBegin(s: State, q: Queue, cfg: RiskConfig, g: nat, was: Group, reason: FailureReason)
    requires Repairable(s, g, was)
    ensures Tame(s, BeginRepair(s, q, cfg, g, was, reason))
  {
    hide ContinueRepair, HasResidual, Count, Emits, Repays, Sum;
    var s1 := s.(gate := Latch(s.gate));
    var uncertain := was.uncertain || reason.VenueStateUncertain?;
    var grp := was.(uncertain := uncertain, failure := reason, exposed := HasResidual(was.legs),
                    state := UncertainOr(uncertain, RepairRequired));
    forall i: nat | i < |grp.legs| ensures LegAccounted(s.trades, g, grp, i) {
      assert LegAccounted(s.trades, g, was, i);
    }
    TameContinue(s1, q, cfg, g, grp);
    forall h | h in s.groups ensures DoubtKept(s, ContinueRepair(s1, q, cfg, g, grp), h) {
      assert DoubtKept(s1, ContinueRepair(s1, q, cfg, g, grp), h);
    }
  }

  lemma TameSettle(s: State, q: Queue, cfg: RiskConfig, g: nat)
    requires Books(s, cfg) && g in s.groups
    ensures Tame(s, SettleGroup(s, q, cfg, g, s.groups[g]))
  {
    hide BeginRepair, HasResidual, AllLegs, SomeLeg, LegInDoubt, ReleaseGroup, Tame, Books, Repairable;
    var was := s.groups[g];
    var grp := was.(exposed := HasResidual(was.legs));
    BooksRepairable(s, cfg, g, grp);
    TameBegin(s, q, cfg, g, grp, VenueStateUncertain);
    TameBegin(s, q, cfg, g, grp, LegPartiallyFilled);
    TameStored(s, cfg, g, grp.(state := Completed, failure := NoFailure, exposed := false));
    TameStored(s, cfg, g, grp.(state := Aborted, failure := NoFailure, exposed := false));
    TameStored(s, cfg, g, grp.(state := GroupPartiallyFilled));
    TameStored(s, cfg, g, grp.(state := GroupWorking));
  }

  /** Storing or releasing a group whose doubt did not change says nothing to the venue. */
  lemma TameStored(s: State, cfg: RiskConfig, g: nat, grp: Group)
    requires g in s.groups && grp.uncertain == s.groups[g].uncertain
    ensures Tame(s, s.(groups := s.groups[g := grp])) && Tame(s, ReleaseGroup(s, cfg, g, grp))
  {
    hide Tame, ReleaseMoney, Releasable;
    SilentIsTame(s, s.(groups := s.groups[g := grp]));
    SilentIsTame(s, ReleaseGroup(s, cfg, g, grp));
  }

  lemma TameUpdate(s: State, q: Queue, cfg: RiskConfig, id: nat)
    requires Books(s, cfg)
    ensures Tame(s, UpdateGroup(s, q, cfg, id))
  {
    hide ContinueRepair, SettleGroup, Tame, Books, Repairable;
    SilentIsTame(s, s);
    if id in s.desk.orders && s.desk.orders[id].group in s.groups {
      var o := s.desk.orders[id];
      var was := s.groups[o.group];
      BooksRepairable(s, cfg, o.group, was.(uncertain := was.uncertain || o.state.Uncertain?));
      TameContinue(s, q, cfg, o.group, was.(uncertain := was.uncertain || o.state.Uncertain?));
      TameSettle(s, q, cfg, o.group);
    }
  }

  lemma {:induction false} TameService(s: State, q: Queue, cfg: RiskConfig, gs: seq<nat>)
    requires Books(s, cfg)
    ensures Tame(s, ServiceEach(s, q, cfg, gs)) && SameLedger(s, ServiceEach(s, q, cfg, gs))
    decreases |gs|
  {
    hide Tame, Books, ContinueRepair, Repairable;
    SilentIsTame(s, s);
    if gs != [] {
      if gs[0] in s.groups && NeedsService(s.groups[gs[0]].state) {
        var s1 := ContinueRepair(s, q, cfg, gs[0], s.groups[gs[0]]);
        BooksRepairable(s, cfg, gs[0], s.groups[gs[0]]);
        TameContinue(s, q, cfg, gs[0], s.groups[gs[0]]);
        BooksContinue(s, q, cfg, gs[0]);
        TameService(s1, q, cfg, gs[1..]);
        TameTrans(s, s1, ServiceEach(s1, q, cfg, gs[1..]));
      } else {
        TameService(s, q, cfg, gs[1..]);
      }
    }
  }

  // -------------------------------------------------------- accounting is silent

  lemma TerminalSilent(s: State, cfg: RiskConfig, id: nat)
    ensures Silent(s, AccountTerminal(s, cfg, id))
  {
    hide ReduceGroup, EnsurePortfolio, RecomputeAll, Store;
    if id in s.desk.orders && IsTerminal(s.desk.orders[id].state) && !s.desk.orders[id].accounted {
      var o := s.desk.orders[id];
      var p := PortfolioOf(EnsurePortfolio(s.money, cfg, o.context.strategy), cfg, o.context.strategy);
      ReduceShape(s.groups, o.group, if o.state.Filled? || o.reserved <= 0 then 0 else Min(p.reserved, o.reserved));
    }
  }

  lemma RestOrderSilent(s: State, cfg: RiskConfig, r: RestResponse, target: Option<nat>)
    ensures Silent(s, RestOrder(s, cfg, r, target))
  {
    hide AccountTerminal, Answered;
    if target.Some? && target.value in s.desk.orders {
      var d := Linked(s.desk, target.value, r.exchange);
      TerminalSilent(s.(desk := WithOrder(d, target.value, Answered(d.orders[target.value], r.kind, r.result))), cfg,
                     target.value);
    }
  }

  lemma {:induction false} RestLegsSilent(s: State, cfg: RiskConfig, b: BatchResponse, targets: seq<Option<nat>>,
                                          i: nat)
    requires |targets| == |b.responses|
    ensures Silent(s, RestLegs(s, cfg, b, targets, i))
    decreases |b.responses| - i
  {
    hide RestOrder;
    if i < |b.responses| {
      if b.responses[i].request == 0 {
        RestLegsSilent(s, cfg, b, targets, i + 1);
      } else {
        RestOrderSilent(s, cfg, LegResult(b.responses[i], b.result), targets[i]);
        RestLegsSilent(RestOrder(s, cfg, LegResult(b.responses[i], b.result), targets[i]), cfg, b, targets, i + 1);
      }
    }
  }

  lemma AccountFillSilent(s: State, cfg: RiskConfig, id: nat, e: Fill)
    ensures Silent(s, AccountFill(s, cfg, id, e))
  {
    hide WellFormedFill, FilledGroups, ReduceGroup, FilledMoney, EnsurePortfolio, FillStops;
    if id in s.desk.orders && WellFormedFill(s.desk.orders[id], e) {
      var o := s.desk.orders[id];
      FilledGroupsShape(s.groups, o, e);
      ReduceShape(FilledGroups(s.groups, o, e), o.group, FillRelease(o, e));
    }
  }

  /** A silent part followed by the group update. */
  lemma TameAfter(s: State, s1: State, q: Queue, cfg: RiskConfig, id: nat)
    requires Silent(s, s1) && Books(s1, cfg)
    ensures Tame(s, UpdateGroup(s1, q, cfg, id))
  {
    hide Tame, Books, UpdateGroup;
    SilentIsTame(s, s1);
    TameUpdate(s1, q, cfg, id);
    TameTrans(s, s1, UpdateGroup(s1, q, cfg, id));
  }

  // ----------------------------------------------------------------- handlers

  lemma TameRest(s: State, q: Queue, cfg: RiskConfig, r: RestResponse, target: Option<nat>)
    requires Books(s, cfg)
    ensures Tame(s, OnRest(s, q, cfg, r, target))
  {
    hide Tame, Books, RestOrder, UpdateGroup, Silent;
    if target.None? || target.value !in s.desk.orders {
      assert Silent(s, s) by { SilentSelf(s); }
      SilentIsTame(s, s);
    } else {
      RestOrderSilent(s, cfg, r, target);
      BooksRestOrder(s, cfg, r, target);
      TameAfter(s, RestOrder(s, cfg, r, target), q, cfg, target.value);
    }
  }

  lemma SilentSelf(s: State)
    ensures Silent(s, s)
  {
  }

  lemma TameBatch(s: State, q: Queue, cfg: RiskConfig, b: BatchResponse, targets: seq<Option<nat>>)
    requires Books(s, cfg) && |targets| == |b.responses|
    ensures Tame(s, OnBatch(s, q, cfg, b, targets))
  {
    hide Tame, Books, RestLegs, UpdateGroup, BeginRepair, Repairable;
    var s1 := RestLegs(s, cfg, b, targets, 0);
    RestLegsSilent(s, cfg, b, targets, 0);
    BooksRestLegs(s, cfg, b, targets, 0);
    SilentIsTame(s, s1);
    if b.group in s1.groups && s1.groups[b.group].legs != [] {
      var grp := s1.groups[b.group];
      BooksRepairable(s1, cfg, b.group, grp.(uncertain := true));
      TameBegin(s1, q, cfg, b.group, grp.(uncertain := true), VenueStateUncertain);
      TameTrans(s, s1, BeginRepair(s1, q, cfg, b.group, grp.(uncertain := true), VenueStateUncertain));
      TameAfter(s, s1, q, cfg, grp.legs[0].request);
    }
  }

  lemma TameUserOrder(s: State, q: Queue, cfg: RiskConfig, e: UserOrder)
    requires Books(s, cfg)
    ensures Tame(s, OnUserOrder(s, q, cfg, e))
  {
    hide Tame, Books, AccountTerminal, UpdateGroup, Emits;
    SilentIsTame(s, s);
    var found := FindRecord(s.desk, e.client, e.exchange);
    if found.Some? {
      var id := found.value;
      var d := Linked(s.desk, id, e.exchange);
      var o := UserOrderApplied(d.orders[id], e);
      var s1 := s.(desk := WithOrder(d, id, o));
      TerminalSilent(s1, cfg, id);
      NothingEmitted(s.wire);
      BooksRole(s, cfg, id, o, d.byExchange, d.nextRequest, s.wire);
      assert WithOrder(d, id, o).orders == s.desk.orders[id := o];
      BooksTerminal(s1, cfg, id);
      TameAfter(s, AccountTerminal(s1, cfg, id), q, cfg, id);
    }
  }

  lemma TameFill(s: State, q: Queue, cfg: RiskConfig, e: Fill)
    requires Books(s, cfg)
    ensures Tame(s, OnFill(s, q, cfg, e))
  {
    hide Tame, Books, AccountTerminal, UpdateGroup, AccountFill, Linked, FilledOrder, Contributes;
    SilentIsTame(s, s);
    var found := FindRecord(s.desk, e.client, e.exchange);
    if found.Some? {
      var id := found.value;
      var d := Linked(s.desk, id, e.exchange);
      LinkedStays(s, cfg, id, e.exchange);
      SilentIsTame(s, s.(desk := d));
      if e.trade.Some? && e.trade.value !in s.trades {
        var s1 := RecordTrade(s, d, id, e);
        var s2 := AccountFill(s1, cfg, id, e);
        AccountFillSilent(s1, cfg, id, e);
        TerminalSilent(s2, cfg, id);
        BooksFill(s, cfg, d, id, e);
        BooksTerminal(s2, cfg, id);
        TameAfter(s, AccountTerminal(s2, cfg, id), q, cfg, id);
      }
    }
  }

  lemma CancelsAreSafe(s: State, s': State, q: Queue)
    requires Emits(s.wire, s'.wire, IsCancelOf(0)) && s'.groups == s.groups && forall g :: g in s.groups ==> 0 < g
    ensures Tame(s, s')
  {
    hide Count, Repays;
    assert Emits(s.wire, s'.wire, NoRepair);
    RepaysNothing(s.wire, s');
    UnrelatedDoubt(s, s');
  }

  lemma TameCancels(s: State, q: Queue, cfg: RiskConfig, ev: Event)
    requires Books(s, cfg) && (ev.CancelArrives? || ev.CancelAllOrders?) && Enabled(s, cfg, ev)
    ensures Tame(s, Step(s, q, cfg, ev))
  {
    hide Books, Tame, CancelEach, EmitCancel, Emits, Enumerates, DeskGrows;
    BooksHaveIds(s, cfg);
    match ev
    case CancelArrives(target) =>
      EmitCancelFacts(s.desk, s.wire, q, target, 0);
      CancelsAreSafe(s, OnCancel(s, q, target), q);
    case CancelAllOrders(ids) =>
      CancelEachFacts(s.desk, s.wire, q, ids, 0);
      CancelsAreSafe(s, OnCancelAll(s, q, ids), q);
  }

  lemma TameReconcile(s: State, q: Queue, cfg: RiskConfig, now: nat)
    requires Books(s, cfg)
    ensures Tame(s, MaybeReconcile(s, q, cfg, now))
  {
    hide Books, Count, ReconciliationDue, Repays;
    BooksHaveIds(s, cfg);
    var s' := MaybeReconcile(s, q, cfg, now);
    if ReconciliationDue(s, cfg, now) {
      DueHasUniverse(s, cfg, now);
      var cmd := RequestReconciliation(s.gate.nextReconciliation, s.gate.universe.value.version);
      SendEmits(s.wire, q, cmd, SafeCommand);
      SendEmits(s.wire, q, cmd, NoRepair);
      RepaysNothing(s.wire, s');
      UnrelatedDoubt(s, s');
    }
  }

  /** Reconciliation and gate steps send nothing. */
  lemma TameQuietly(s: State, q: Queue, cfg: RiskConfig, ev: Event)
    requires Enabled(s, cfg, ev)
    requires ev.PositionArrives? || ev.SnapshotArrives? || ev.AllowTrading? || ev.DisableTrading? || ev.ApplyUniverse?
    ensures Tame(s, Step(s, q, cfg, ev))
  {
    hide Tame, VenuePositionApplied, RecomputeAll, AdoptPositions, VenueByMarket;
    SilentIsTame(s, Step(s, q, cfg, ev));
  }

  lemma NewOrderDoubt(s: State, q: Queue, cfg: RiskConfig, o: NewOrder)
    requires Books(s, cfg)
    ensures Doubt(s, OnNewOrder(s, q, cfg, o)) && Emits(s.wire, OnNewOrder(s, q, cfg, o).wire, NoRepair)
    ensures s.gate.incident ==> OnNewOrder(s, q, cfg, o).wire == s.wire
  {
    hide Books, Doubt, EnsurePortfolio, RecomputeAll, OpenOrders, Store, FullNotional, RouteOf, Send, Emits;
    BooksHaveIds(s, cfg);
    var cmd := Submit(s.desk.nextRequest, o, false, 0);
    SendEmits(s.wire, q, cmd, NoRepair);
    NothingEmitted(s.wire);
    UnrelatedDoubt(s, OnNewOrder(s, q, cfg, o));
  }

  lemma ModifyDoubt(s: State, q: Queue, cfg: RiskConfig, target: nat)
    requires Books(s, cfg)
    ensures Doubt(s, OnModify(s, q, target)) && Emits(s.wire, OnModify(s, q, target).wire, NoRepair)
    ensures s.gate.incident ==> OnModify(s, q, target).wire == s.wire
  {
    hide Books, Doubt, Send, Emits;
    BooksHaveIds(s, cfg);
    SendEmits(s.wire, q, Modify(s.desk.nextRequest, target), NoRepair);
    NothingEmitted(s.wire);
    UnrelatedDoubt(s, OnModify(s, q, target));
  }

  lemma GroupDoubt(s: State, q: Queue, cfg: RiskConfig, intent: GroupIntent, now: nat, slots: Option<int>)
    requires Books(s, cfg)
    ensures Doubt(s, OnGroup(s, q, cfg, intent, now, slots))
    ensures Emits(s.wire, OnGroup(s, q, cfg, intent, now, slots).wire, NoRepair)
    ensures s.gate.incident ==> OnGroup(s, q, cfg, intent, now, slots).wire == s.wire
  {
    hide Books, Doubt, OpenOrders, Reserve, ReleaseMoney, WithLegs, LegCommands, FreshGroup, JudgeGroup, Send, Emits;
    BooksHaveIds(s, cfg);
    if s.gate.incident { BlockedGroup(s, cfg, intent, now, slots); }
    SendEmits(s.wire, q, SubmitBatch(s.desk.nextRequest, s.nextGroup, LegCommands(intent, s.desk.nextRequest + 1)),
              NoRepair);
    NothingEmitted(s.wire);
    UnrelatedDoubt(s, OnGroup(s, q, cfg, intent, now, slots));
  }

  lemma BlockedGroup(s: State, cfg: RiskConfig, intent: GroupIntent, now: nat, slots: Option<int>)
    requires s.gate.incident
    ensures JudgeGroup(s, cfg, intent, now, slots).0 == Some(ExecutionBlocked)
  {
  }

  /** Every step only appends commands and keeps every doubt; every repair order it sends takes back
      exactly what the trades accounted by then left; and from an incident it sends only safe commands. */
  lemma EgressStep(s: State, q: Queue, cfg: RiskConfig, ev: Event)
    requires Books(s, cfg) && Enabled(s, cfg, ev)
    ensures Doubt(s, Step(s, q, cfg, ev))
    ensures Emits(s.wire, Step(s, q, cfg, ev).wire, Repays(Step(s, q, cfg, ev).groups, Step(s, q, cfg, ev).trades))
    ensures s.gate.incident ==> Emits(s.wire, Step(s, q, cfg, ev).wire, SafeCommand)
  {
    hide Books, OnNewOrder, OnCancel, OnModify, OnGroup, OnRest, OnBatch, OnUserOrder, OnFill, OnPosition, OnSnapshot,
         OnUniverse, ServiceEach, Enabled, OnAllow, OnDisable, OnCancelAll, MaybeReconcile, Doubt, Repays;
    match ev
    case NewOrderArrives(o) => NewOrderDoubt(s, q, cfg, o); RepaysNothing(s.wire, OnNewOrder(s, q, cfg, o));
    case ModifyArrives(target) => ModifyDoubt(s, q, cfg, target); RepaysNothing(s.wire, OnModify(s, q, target));
    case GroupArrives(intent, now, slots) =>
      GroupDoubt(s, q, cfg, intent, now, slots);
      RepaysNothing(s.wire, OnGroup(s, q, cfg, intent, now, slots));
    case CancelArrives(target) => TameCancels(s, q, cfg, ev);
    case CancelAllOrders(ids) => TameCancels(s, q, cfg, ev);
    case RestArrives(r, target) => TameRest(s, q, cfg, r, target);
    case BatchArrives(b, targets) => BatchTargets(s, cfg, b, targets); TameBatch(s, q, cfg, b, targets);
    case UserOrderArrives(e) => TameUserOrder(s, q, cfg, e);
    case FillArrives(e) => TameFill(s, q, cfg, e);
    case ServiceIncidents(gs) => TameService(s, q, cfg, gs);
    case PumpReconciliation(now) => TameReconcile(s, q, cfg, now);
    case PositionArrives(v) => TameQuietly(s, q, cfg, ev);
    case SnapshotArrives(snap, now) => TameQuietly(s, q, cfg, ev);
    case AllowTrading => TameQuietly(s, q, cfg, ev);
    case DisableTrading => TameQuietly(s, q, cfg, ev);
    case ApplyUniverse(u) => TameQuietly(s, q, cfg, ev);
  }
}
