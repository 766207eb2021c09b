/** Where doubt about a group comes from. Over a queue that keeps the room it shows, a group turns
    uncertain only for a cause that can be seen in the state it is then in, or because a batch answer
    could not be matched to its legs; never because a repair command was refused. */
module OmsDoubt {
  import opened Wrappers
  import opened OmsTypes
  import opened Oms
  import opened OmsRepair
  import opened OmsMoney
  import opened OmsLedger
  import opened OmsBooks
  import opened OmsSteps
  import opened OmsHandlers
  import opened OmsRuns
  import opened OmsQueue
  import S = Spsc

  // ------------------------------------------------------------------------- causes

  /** The venue never said what became of the order; a cancel may have gone out for it since. */
  predicate OrderDoubtful(o: Order) { o.state.Uncertain? || (o.state.PendingCancel? && o.previous.Uncertain?) }

  predicate OrderInDoubt(orders: map<nat, Order>, g: nat) {
    exists id :: id in orders && orders[id].group == g && OrderDoubtful(orders[id])
  }

  /** Every leg is reported filled, and fills that would explain it have not been accounted. */
  predicate FilledYetHeld(orders: map<nat, Order>, legs: seq<Leg>) {
    AllLegs(orders, legs, IsFilled) && !AllLegs(orders, legs, HoldsNothing)
  }

  /** What may put group `g` in doubt: the overflow guard, an order of the group in doubt, a residual
      no repair order can be built for, or fills that are missing. */
  predicate Cause(s: State, g: nat)
    requires g in s.groups
  {
    || s.groups[g].overflowed || OrderInDoubt(s.desk.orders, g)
    || SomeUnrepairable(s.desk, s.groups[g].legs, 0) || FilledYetHeld(s.desk.orders, s.groups[g].legs)
  }

  /** Every group in doubt was so before, has a cause, or is excused. */
  predicate Explained(s: State, s': State, excused: set<nat>) {
    forall g :: g in s'.groups && s'.groups[g].uncertain ==>
      (g in s.groups && s.groups[g].uncertain) || Cause(s', g) || g in excused
  }

  /** Causes stay. */
  predicate CausesKept(s: State, s': State) {
    forall g :: g in s.groups ==> g in s'.groups && (Cause(s, g) ==> Cause(s', g))
  }

  /** Active repair orders exist and belong to their group. */
  predicate RepairsPlaced(orders: map<nat, Order>, g: nat, legs: seq<Leg>) {
    forall i :: 0 <= i < |legs| && legs[i].repair != 0 ==>
      legs[i].repair in orders && orders[legs[i].repair].group == g
  }

  predicate Placed(s: State) { forall g :: g in s.groups ==> RepairsPlaced(s.desk.orders, g, s.groups[g].legs) }

  // ------------------------------------------------------------------ one repair pass

  /** Untouched, or a cancel went out for it. */
  predicate Touched(o: Order, o': Order) {
    o' == o || (IsCancelable(o.state) && o' == o.(previous := o.state, state := PendingCancel, pending := o'.pending,
                                                  pendingKind := CancelOrder))
  }

  predicate DeskTouched(d: Desk, d': Desk) {
    forall id :: id in d.orders ==> id in d'.orders && Touched(d.orders[id], d'.orders[id])
  }

  lemma TouchedTrans(d: Desk, d1: Desk, d2: Desk)
    requires DeskTouched(d, d1) && DeskTouched(d1, d2)
    ensures DeskTouched(d, d2)
  {
  }

  lemma {:induction false} CancelTouches(d: Desk, w: Wire, q: Queue, ids: seq<nat>, g: nat)
    ensures DeskTouched(d, CancelEach(d, w, q, ids, g).0)
    decreases |ids|
  {
    if ids != [] {
      var (d1, w1, ok) := EmitCancel(d, w, q, ids[0], g);
      CancelTouches(d1, w1, q, ids[1..], g);
      assert DeskTouched(d, d1);
      hide DeskTouched;
      TouchedTrans(d, d1, CancelEach(d1, w1, q, ids[1..], g).0);
    }
  }

  lemma {:induction false} SubmitTouches(d: Desk, w: Wire, q: Queue, g: nat, legs: seq<Leg>, i: nat, sent: nat)
    requires IdsBelow(d) && RepairsPlaced(d.orders, g, legs)
    ensures var r := SubmitEach(d, w, q, g, legs, i, sent);
            DeskTouched(d, r.desk) && RepairsPlaced(r.desk.orders, g, r.legs)
    decreases |legs| - i
  {
    if i < |legs| {
      if legs[i].residual == 0 {
        SubmitTouches(d, w, q, g, legs, i + 1, sent);
      } else if !Unrepairable(d, legs[i]) {
        var original := d.orders[legs[i].request];
        var id := d.nextRequest;
        var (w1, ok) := Send(w, q, Submit(id, RepairIntent(original, i, legs[i].residual), true, g));
        if ok {
          var d1 := WithOrder(d.(nextRequest := id + 1), id, RepairOrder(original, id, g, i, legs[i].residual));
          var legs1 := legs[i := legs[i].(repair := id)];
          assert DeskTouched(d, d1) && RepairsPlaced(d1.orders, g, legs1);
          hide DeskTouched, RepairsPlaced, RepairOrder, RepairIntent, Send;
          SubmitTouches(d1, w1, q, g, legs1, i + 1, sent + 1);
          TouchedTrans(d, d1, SubmitEach(d1, w1, q, g, legs1, i + 1, sent + 1).desk);
        }
      }
    }
  }

  lemma TouchedPlaced(d: Desk, d': Desk, g: nat, legs: seq<Leg>)
    requires DeskTouched(d, d') && RepairsPlaced(d.orders, g, legs)
    ensures RepairsPlaced(d'.orders, g, legs)
  {
  }

  lemma RetiredPlaced(orders: map<nat, Order>, g: nat, legs: seq<Leg>)
    requires RepairsPlaced(orders, g, legs)
    ensures RepairsPlaced(orders, g, RetireRepairs(orders, legs))
  {
  }

  /** What a pass does to orders and to the repair orders of its group. */
  predicate PassTouched(d: Desk, g: nat, r: Repair) {
    DeskTouched(d, r.desk) && RepairsPlaced(r.desk.orders, g, r.group.legs)
  }

  lemma CancelRoundTouches(d: Desk, w: Wire, q: Queue, cfg: RiskConfig, g: nat, grp: Group, ids: seq<nat>)
    requires RepairsPlaced(d.orders, g, grp.legs)
    ensures PassTouched(d, g, CancelRound(d, w, q, cfg, g, grp, ids))
  {
    CancelTouches(d, Looked(w), q, ids, g);
    TouchedPlaced(d, CancelEach(d, Looked(w), q, ids, g).0, g, grp.legs);
    TouchedSelf(d);
    hide CancelEach, DeskTouched, RepairsPlaced, HasResidual;
  }

  lemma UnwindTouches(d: Desk, w: Wire, q: Queue, cfg: RiskConfig, g: nat, was: Group)
    requires IdsBelow(d) && RepairsPlaced(d.orders, g, was.legs)
    ensures PassTouched(d, g, Unwind(d, w, q, cfg, g, was))
  {
    var legs := RetireRepairs(d.orders, was.legs);
    RetiredPlaced(d.orders, g, was.legs);
    SubmitTouches(d, Looked(w), q, g, legs, 0, 0);
    TouchedSelf(d);
    hide SubmitEach, DeskTouched, RepairsPlaced, RepairInDoubt, RepairLive, SomeLeg, HasResidual, ResidualCount,
         RetireRepairs;
  }

  lemma PassTouches(d: Desk, w: Wire, q: Queue, cfg: RiskConfig, g: nat, was: Group)
    requires IdsBelow(d) && RepairsPlaced(d.orders, g, was.legs)
    ensures PassTouched(d, g, RepairPass(d, w, q, cfg, g, was))
  {
    hide CancelRound, Unwind, LegInDoubt, SomeLeg, Cancelables, DeskTouched, RepairsPlaced;
    var grp := was.(uncertain := was.uncertain || LegInDoubt(d.orders, was.legs));
    CancelRoundTouches(d, w, q, cfg, g, grp, Cancelables(d.orders, was.legs));
    UnwindTouches(d, w, q, cfg, g, grp);
    TouchedSelf(d);
  }

  /** Whatever was a cause before the desk was touched is one after. */
  lemma TouchedCause(s: State, s': State, g: nat)
    requires g in s.groups && g in s'.groups && DeskTouched(s.desk, s'.desk)
    requires SameLegs(s.groups[g].legs, s'.groups[g].legs) && s'.groups[g].overflowed == s.groups[g].overflowed
    requires LegsPlaced(s.desk.orders, g, s.groups[g].legs)
    ensures Cause(s, g) ==> Cause(s', g)
  {
    var (legs, legs') := (s.groups[g].legs, s'.groups[g].legs);
    if OrderInDoubt(s.desk.orders, g) {
      var id :| id in s.desk.orders && s.desk.orders[id].group == g && OrderDoubtful(s.desk.orders[id]);
      assert OrderDoubtful(s'.desk.orders[id]);
    }
    if SomeUnrepairable(s.desk, legs, 0) {
      var j :| 0 <= j < |legs| && legs[j].residual != 0 && Unrepairable(s.desk, legs[j]);
      assert LegPlaced(s.desk.orders, g, j, legs[j]);
      assert legs'[j].residual != 0 && Unrepairable(s'.desk, legs'[j]);
    }
    if FilledYetHeld(s.desk.orders, legs) {
      FilledStays(s.desk, s'.desk, legs, legs');
    }
  }

  lemma FilledStays(d: Desk, d': Desk, legs: seq<Leg>, legs': seq<Leg>)
    requires DeskTouched(d, d') && SameLegs(legs, legs') && FilledYetHeld(d.orders, legs)
    ensures FilledYetHeld(d'.orders, legs')
  {
    forall i | 0 <= i < |legs'|
      ensures legs'[i].request in d'.orders && d'.orders[legs'[i].request] == d.orders[legs[i].request]
    {
      assert IsFilled(d.orders[legs[i].request]);
    }
    var i :| 0 <= i < |legs| && !(legs[i].request in d.orders && HoldsNothing(d.orders[legs[i].request]));
    assert !HoldsNothing(d'.orders[legs'[i].request]);
  }

  /** Where the doubt of an honest pass comes from. */
  lemma PassCause(d: Desk, w: Wire, q: Queue, cfg: RiskConfig, g: nat, was: Group)
    requires Honest(q) && IdsBelow(d) && LegsPlaced(d.orders, g, was.legs) && RepairsPlaced(d.orders, g, was.legs)
    ensures RepairPass(d, w, q, cfg, g, was).group.uncertain ==>
              was.uncertain || OrderInDoubt(d.orders, g) || SomeUnrepairable(d, was.legs, 0)
  {
    hide Honest, RepairPass, SomeUnrepairable, Cancelables, ResidualCount;
    HonestPass(d, w, q, cfg, g, was);
    if LegInDoubt(d.orders, was.legs) {
      var i :| 0 <= i < |was.legs| &&
        (was.legs[i].request !in d.orders || d.orders[was.legs[i].request].state.Uncertain?);
      assert LegPlaced(d.orders, g, i, was.legs[i]);
      assert OrderDoubtful(d.orders[was.legs[i].request]);
    }
    if RepairInDoubt(d.orders, was.legs) {
      var i :| 0 <= i < |was.legs| && was.legs[i].repair != 0 &&
        (was.legs[i].repair !in d.orders || d.orders[was.legs[i].repair].state.Uncertain?);
      assert OrderDoubtful(d.orders[was.legs[i].repair]);
    }
  }

  // ---------------------------------------------------------------- repair in the whole state

  /** Orders are numbered and legs have theirs. */
  predicate Sited(s: State) {
    IdsBelow(s.desk) && forall g :: g in s.groups ==> LegsPlaced(s.desk.orders, g, s.groups[g].legs)
  }

  lemma BooksSited(s: State, cfg: RiskConfig)
    requires Books(s, cfg)
    ensures Sited(s)
  {
    hide LedgerInv, FillsInv, MoneyInv, RoundsInv, LegsPlaced;
    assert Structure(s.desk, s.groups, s.nextGroup);
  }

  predicate Passes(s: State, s': State, excused: set<nat>) {
    Explained(s, s', excused) && CausesKept(s, s') && Placed(s')
  }

  lemma PassesTrans(s: State, s1: State, s2: State, excused: set<nat>)
    requires Passes(s, s1, excused) && Passes(s1, s2, excused)
    ensures Passes(s, s2, excused)
  {
    hide Cause, RepairsPlaced;
    forall g | g in s2.groups && s2.groups[g].uncertain
      ensures (g in s.groups && s.groups[g].uncertain) || Cause(s2, g) || g in excused
    {
    }
  }

  lemma PassesSelf(s: State)
    requires Placed(s)
    ensures Passes(s, s, {})
  {
    hide Cause, RepairsPlaced;
  }

  lemma AppliedTo(s: State, cfg: RiskConfig, g: nat, r: Repair)
    requires g in s.groups
    ensures var s' := ApplyRepair(s, cfg, g, r);
            && s'.desk == r.desk && s'.groups.Keys == s.groups.Keys && s'.groups[g].uncertain == r.group.uncertain
            && s'.groups[g].legs == r.group.legs && s'.groups[g].overflowed == r.group.overflowed
            && forall h :: h in s.groups && h != g ==> s'.groups[h] == s.groups[h]
  {
    hide ReleaseMoney, Releasable, OpenOrders, AnyBroken;
  }

  /** The state before a pass over group `g` and after: only that group and cancels moved. */
  lemma PassPasses(s: State, s': State, g: nat, excused: set<nat>)
    requires Sited(s) && Placed(s) && g in s.groups && s'.groups.Keys == s.groups.Keys
    requires DeskTouched(s.desk, s'.desk) && SameLegs(s.groups[g].legs, s'.groups[g].legs)
    requires s'.groups[g].overflowed == s.groups[g].overflowed
    requires RepairsPlaced(s'.desk.orders, g, s'.groups[g].legs)
    requires forall h :: h in s.groups && h != g ==> s'.groups[h] == s.groups[h]
    requires s'.groups[g].uncertain ==> s.groups[g].uncertain || Cause(s, g) || g in excused
    ensures Passes(s, s', excused)
  {
    hide Cause, RepairsPlaced, LegsPlaced, DeskTouched;
    forall h | h in s.groups
      ensures (Cause(s, h) ==> Cause(s', h)) && RepairsPlaced(s'.desk.orders, h, s'.groups[h].legs)
    {
      if h != g { SameLegsSelf(s.groups[h].legs); TouchedPlaced(s.desk, s'.desk, h, s.groups[h].legs); }
      TouchedCause(s, s', h);
    }
  }

  lemma SameLegsSelf(legs: seq<Leg>)
    ensures SameLegs(legs, legs)
  {
  }

  lemma DoubtContinue(s: State, q: Queue, cfg: RiskConfig, g: nat, grp: Group, excused: set<nat>)
    requires Honest(q) && Sited(s) && Placed(s) && g in s.groups
    requires grp.legs == s.groups[g].legs && grp.overflowed == s.groups[g].overflowed
    requires grp.uncertain ==> s.groups[g].uncertain || Cause(s, g) || g in excused
    ensures Passes(s, ContinueRepair(s, q, cfg, g, grp), excused)
  {
    hide Honest, Passes, RepairPass, ApplyRepair, SomeUnrepairable, OrderInDoubt, FilledYetHeld, RepairsPlaced,
         LegsPlaced, DeskTouched, DeskGrows, OneRound, RoundsBounded, HasResidual, IdsBelow;
    var s' := ContinueRepair(s, q, cfg, g, grp);
    SameLegsSelf(grp.legs);
    if grp.released || grp.state.RepairFailed? {
      assert DeskTouched(s.desk, s.desk) by { TouchedSelf(s.desk); }
      PassPasses(s, s', g, excused);
    } else {
      var r := RepairPass(s.desk, s.wire, q, cfg, g, grp);
      RepairPassFacts(s.desk, s.wire, q, cfg, g, grp);
      PassTouches(s.desk, s.wire, q, cfg, g, grp);
      PassCause(s.desk, s.wire, q, cfg, g, grp);
      AppliedTo(s, cfg, g, r);
      PassPasses(s, s', g, excused);
    }
  }

  lemma TouchedSelf(d: Desk)
    ensures DeskTouched(d, d)
  {
  }

  lemma DoubtBegin(s: State, q: Queue, cfg: RiskConfig, g: nat, was: Group, reason: FailureReason, excused: set<nat>)
    requires Honest(q) && Sited(s) && Placed(s) && g in s.groups
    requires was.legs == s.groups[g].legs && was.overflowed == s.groups[g].overflowed
    requires was.uncertain || reason.VenueStateUncertain? ==> s.groups[g].uncertain || Cause(s, g) || g in excused
    ensures Passes(s, BeginRepair(s, q, cfg, g, was, reason), excused)
  {
    hide Honest, ContinueRepair, HasResidual, SomeUnrepairable, OrderInDoubt, FilledYetHeld, RepairsPlaced,
         LegsPlaced, IdsBelow;
    var s1 := s.(gate := Latch(s.gate));
    var uncertain := was.uncertain || reason.VenueStateUncertain?;
    var grp := was.(uncertain := uncertain, failure := reason, exposed := HasResidual(was.legs),
                    state := UncertainOr(uncertain, RepairRequired));
    DoubtContinue(s1, q, cfg, g, grp, excused);
  }

  /** Storing or releasing a group whose doubt did not change. */
  lemma DoubtStored(s: State, cfg: RiskConfig, g: nat, grp: Group)
    requires Sited(s) && Placed(s) && g in s.groups
    requires grp.legs == s.groups[g].legs && grp.overflowed == s.groups[g].overflowed
    requires grp.uncertain == s.groups[g].uncertain
    ensures Passes(s, s.(groups := s.groups[g := grp]), {}) && Passes(s, ReleaseGroup(s, cfg, g, grp), {})
  {
    hide Passes, ReleaseMoney, Releasable, RepairsPlaced, LegsPlaced, IdsBelow, Cause;
    SameLegsSelf(grp.legs);
    TouchedSelf(s.desk);
    hide DeskTouched;
    PassPasses(s, s.(groups := s.groups[g := grp]), g, {});
    PassPasses(s, ReleaseGroup(s, cfg, g, grp), g, {});
  }

  lemma LegDoubtIsCause(s: State, g: nat)
    requires Sited(s) && g in s.groups && LegInDoubt(s.desk.orders, s.groups[g].legs)
    ensures Cause(s, g)
  {
    var legs := s.groups[g].legs;
    var i :| 0 <= i < |legs| && (legs[i].request !in s.desk.orders || s.desk.orders[legs[i].request].state.Uncertain?);
    assert LegPlaced(s.desk.orders, g, i, legs[i]);
    assert OrderDoubtful(s.desk.orders[legs[i].request]);
  }

  lemma DoubtSettle(s: State, q: Queue, cfg: RiskConfig, g: nat)
    requires Honest(q) && Sited(s) && Placed(s) && g in s.groups
    ensures Passes(s, SettleGroup(s, q, cfg, g, s.groups[g]), {})
  {
    hide BeginRepair, HasResidual, AllLegs, SomeLeg, LegInDoubt, ReleaseGroup, Passes, Sited, Placed, Honest,
         OrderInDoubt, SomeUnrepairable;
    var was := s.groups[g];
    var grp := was.(exposed := HasResidual(was.legs));
    if LegInDoubt(s.desk.orders, was.legs) { LegDoubtIsCause(s, g); }
    if was.uncertain || Cause(s, g) { DoubtBegin(s, q, cfg, g, grp, VenueStateUncertain, {}); }
    DoubtBegin(s, q, cfg, g, grp, LegPartiallyFilled, {});
    DoubtStored(s, cfg, g, grp.(state := Completed, failure := NoFailure, exposed := false));
    DoubtStored(s, cfg, g, grp.(state := Aborted, failure := NoFailure, exposed := false));
    DoubtStored(s, cfg, g, grp.(state := GroupPartiallyFilled));
    DoubtStored(s, cfg, g, grp.(state := GroupWorking));
  }

  lemma DoubtUpdate(s: State, q: Queue, cfg: RiskConfig, id: nat)
    requires Honest(q) && Sited(s) && Placed(s)
    ensures Passes(s, UpdateGroup(s, q, cfg, id), {})
  {
    hide ContinueRepair, SettleGroup, Passes, Sited, Placed, Honest, SomeUnrepairable, FilledYetHeld;
    PassesSelf(s);
    if id in s.desk.orders && s.desk.orders[id].group in s.groups {
      var o := s.desk.orders[id];
      var was := s.groups[o.group];
      if o.state.Uncertain? { assert OrderDoubtful(o) && OrderInDoubt(s.desk.orders, o.group); }
      DoubtContinue(s, q, cfg, o.group, was.(uncertain := was.uncertain || o.state.Uncertain?), {});
      DoubtSettle(s, q, cfg, o.group);
    }
  }

  lemma {:induction false} DoubtService(s: State, q: Queue, cfg: RiskConfig, gs: seq<nat>)
    requires Honest(q) && Books(s, cfg) && Placed(s)
    ensures Passes(s, ServiceEach(s, q, cfg, gs), {})
    decreases |gs|
  {
    hide Passes, Books, ContinueRepair, Honest, Placed, Sited, Cause;
    PassesSelf(s);
    if gs != [] {
      if gs[0] in s.groups && NeedsService(s.groups[gs[0]].state) {
        var s1 := ContinueRepair(s, q, cfg, gs[0], s.groups[gs[0]]);
        BooksSited(s, cfg);
        DoubtContinue(s, q, cfg, gs[0], s.groups[gs[0]], {});
        BooksContinue(s, q, cfg, gs[0]);
        assert Placed(s1) by { PassesPlaced(s, s1, {}); }
        DoubtService(s1, q, cfg, gs[1..]);
        PassesTrans(s, s1, ServiceEach(s1, q, cfg, gs[1..]), {});
      } else {
        DoubtService(s, q, cfg, gs[1..]);
      }
    }
  }

  lemma PassesPlaced(s: State, s': State, excused: set<nat>)
    requires Passes(s, s', excused)
    ensures Placed(s')
  {
    hide Cause, RepairsPlaced;
  }

  // ------------------------------------------------------------------ accounting

  /** Orders stay with their groups, legs keep their orders, and doubt comes from the overflow guard. */
  predicate Accounts(s: State, s': State) {
    && (forall id :: id in s.desk.orders ==>
          id in s'.desk.orders && s'.desk.orders[id].group == s.desk.orders[id].group)
    && s'.groups.Keys == s.groups.Keys
    && (forall g :: g in s.groups ==> GroupAccounts(s.groups[g], s'.groups[g]))
  }

  predicate GroupAccounts(grp: Group, grp': Group) {
    && |grp'.legs| == |grp.legs| && (forall i :: 0 <= i < |grp.legs| ==> grp'.legs[i].repair == grp.legs[i].repair)
    && (grp.overflowed ==> grp'.overflowed) && (grp'.uncertain ==> grp.uncertain || grp'.overflowed)
  }

  lemma AccountsTrans(s: State, s1: State, s2: State)
    requires Accounts(s, s1) && Accounts(s1, s2)
    ensures Accounts(s, s2)
  {
    forall g | g in s.groups ensures GroupAccounts(s.groups[g], s2.groups[g]) {
      GroupAccountsTrans(s.groups[g], s1.groups[g], s2.groups[g]);
    }
  }

  lemma AccountsExplain(s: State, s': State)
    requires Accounts(s, s') && Placed(s)
    ensures Explained(s, s', {}) && Placed(s')
  {
    forall g | g in s'.groups
      ensures RepairsPlaced(s'.desk.orders, g, s'.groups[g].legs)
      ensures s'.groups[g].uncertain ==> s.groups[g].uncertain || Cause(s', g)
    {
      assert GroupAccounts(s.groups[g], s'.groups[g]) && RepairsPlaced(s.desk.orders, g, s.groups[g].legs);
    }
  }

  /** One order was rewritten without changing its group. */
  lemma OrderAccounts(s: State, d: Desk)
    requires forall id :: id in s.desk.orders ==> id in d.orders && d.orders[id].group == s.desk.orders[id].group
    ensures Accounts(s, s.(desk := d))
  {
  }

  lemma TerminalAccounts(s: State, cfg: RiskConfig, id: nat)
    ensures Accounts(s, AccountTerminal(s, cfg, id))
  {
    hide EnsurePortfolio, RecomputeAll, Store;
  }

  lemma FillAccounts(s: State, cfg: RiskConfig, id: nat, e: Fill)
    ensures Accounts(s, AccountFill(s, cfg, id, e))
  {
    hide WellFormedFill, FilledMoney, EnsurePortfolio, FillStops, FilledGroups, FillRelease, PositionOf, ReduceGroup,
         GroupAccounts;
    if id in s.desk.orders && WellFormedFill(s.desk.orders[id], e) {
      var o := s.desk.orders[id];
      FilledAccount(s.groups, o, e);
      ReducedAccount(FilledGroups(s.groups, o, e), o.group, FillRelease(o, e));
      forall g | g in s.groups ensures GroupAccounts(s.groups[g], AccountFill(s, cfg, id, e).groups[g]) {
        GroupAccountsTrans(s.groups[g], FilledGroups(s.groups, o, e)[g], AccountFill(s, cfg, id, e).groups[g]);
      }
    } else {
      SameAccounts(s, s);
    }
  }

  lemma GroupAccountsTrans(grp: Group, grp1: Group, grp2: Group)
    requires GroupAccounts(grp, grp1) && (GroupAccounts(grp1, grp2) || grp2 == grp1)
    ensures GroupAccounts(grp, grp2)
  {
  }

  lemma FilledAccount(groups: map<nat, Group>, o: Order, e: Fill)
    ensures FilledGroups(groups, o, e).Keys == groups.Keys
    ensures forall g :: g in groups ==> GroupAccounts(groups[g], FilledGroups(groups, o, e)[g])
  {
    hide WellFormedFill, FillLots, Overflows;
  }

  lemma ReducedAccount(groups: map<nat, Group>, g: nat, amount: int)
    ensures ReduceGroup(groups, g, amount).Keys == groups.Keys
    ensures forall h :: h in groups ==> GroupAccounts(groups[h], ReduceGroup(groups, g, amount)[h])
  {
  }

  lemma RestAccounts(s: State, cfg: RiskConfig, r: RestResponse, target: Option<nat>)
    ensures Accounts(s, RestOrder(s, cfg, r, target))
  {
    hide AccountTerminal, Accounts;
    if target.Some? && target.value in s.desk.orders {
      var id := target.value;
      var d := WithOrder(Linked(s.desk, id, r.exchange), id,
                         Answered(Linked(s.desk, id, r.exchange).orders[id], r.kind, r.result));
      OrderAccounts(s, d);
      TerminalAccounts(s.(desk := d), cfg, id);
      AccountsTrans(s, s.(desk := d), AccountTerminal(s.(desk := d), cfg, id));
    } else {
      OrderAccounts(s, s.desk);
    }
  }

  lemma {:induction false} RestLegsAccount(s: State, cfg: RiskConfig, b: BatchResponse, targets: seq<Option<nat>>,
                                           i: nat)
    requires |targets| == |b.responses|
    ensures Accounts(s, RestLegs(s, cfg, b, targets, i))
    decreases |b.responses| - i
  {
    hide RestOrder, Accounts;
    if i >= |b.responses| {
      OrderAccounts(s, s.desk);
    } else if b.responses[i].request == 0 {
      RestLegsAccount(s, cfg, b, targets, i + 1);
    } else {
      var s1 := RestOrder(s, cfg, LegResult(b.responses[i], b.result), targets[i]);
      RestAccounts(s, cfg, LegResult(b.responses[i], b.result), targets[i]);
      RestLegsAccount(s1, cfg, b, targets, i + 1);
      AccountsTrans(s, s1, RestLegs(s1, cfg, b, targets, i + 1));
    }
  }

  // -------------------------------------------------------------------- handlers

  predicate Accountable(s: State, s': State, excused: set<nat>) { Explained(s, s', excused) && Placed(s') }

  /** Accounting followed by a pass. */
  lemma DoubtAfter(s: State, s1: State, s2: State, excused: set<nat>)
    requires Accounts(s, s1) && Placed(s) && Passes(s1, s2, excused)
    ensures Accountable(s, s2, excused)
  {
    AccountsExplain(s, s1);
    hide Cause, RepairsPlaced, Accounts;
  }

  lemma DoubtRest(s: State, q: Queue, cfg: RiskConfig, r: RestResponse, target: Option<nat>)
    requires Honest(q) && Books(s, cfg) && Placed(s)
    ensures Accountable(s, OnRest(s, q, cfg, r, target), {})
  {
    hide Honest, Books, Placed, Sited, RestOrder, UpdateGroup, Accounts, Passes, Explained;
    if target.None? || target.value !in s.desk.orders {
      OrderAccounts(s, s.desk);
      AccountsExplain(s, s);
    } else {
      var s1 := RestOrder(s, cfg, r, target);
      RestAccounts(s, cfg, r, target);
      AccountsExplain(s, s1);
      BooksRestOrder(s, cfg, r, target);
      BooksSited(s1, cfg);
      DoubtUpdate(s1, q, cfg, target.value);
      DoubtAfter(s, s1, UpdateGroup(s1, q, cfg, target.value), {});
    }
  }

  /** The groups a batch answer that cannot be matched to its legs puts in doubt. */
  function Unmatched(ev: Event): set<nat> {
    if ev.BatchArrives? && CorrelationMissing(ev.batch) then {ev.batch.group} else {}
  }

  lemma DoubtBatch(s: State, q: Queue, cfg: RiskConfig, b: BatchResponse, targets: seq<Option<nat>>)
    requires Honest(q) && Books(s, cfg) && Placed(s) && |targets| == |b.responses|
    ensures Accountable(s, OnBatch(s, q, cfg, b, targets), Unmatched(BatchArrives(b, targets)))
  {
    hide Honest, Books, Placed, Sited, RestLegs, UpdateGroup, BeginRepair, Accounts, Passes, Explained,
         CorrelationMissing, Cause;
    var s1 := RestLegs(s, cfg, b, targets, 0);
    var x := Unmatched(BatchArrives(b, targets));
    RestLegsAccount(s, cfg, b, targets, 0);
    AccountsExplain(s, s1);
    BooksRestLegs(s, cfg, b, targets, 0);
    BooksSited(s1, cfg);
    if b.group in s1.groups && s1.groups[b.group].legs != [] {
      var grp := s1.groups[b.group];
      FirstLegKnown(s1, b.group);
      if CorrelationMissing(b) {
        DoubtBegin(s1, q, cfg, b.group, grp.(uncertain := true), VenueStateUncertain, x);
        DoubtAfter(s, s1, BeginRepair(s1, q, cfg, b.group, grp.(uncertain := true), VenueStateUncertain), x);
      } else {
        DoubtUpdate(s1, q, cfg, grp.legs[0].request);
        DoubtAfter(s, s1, UpdateGroup(s1, q, cfg, grp.legs[0].request), {});
      }
    } else {
      WiderExcuse(s, s1, x);
    }
  }

  lemma FirstLegKnown(s: State, g: nat)
    requires Sited(s) && g in s.groups && s.groups[g].legs != []
    ensures s.groups[g].legs[0].request in s.desk.orders
  {
    assert LegPlaced(s.desk.orders, g, 0, s.groups[g].legs[0]);
  }

  lemma WiderExcuse(s: State, s': State, excused: set<nat>)
    requires Explained(s, s', {})
    ensures Explained(s, s', excused)
  {
    hide Cause;
  }

  lemma DoubtUserOrder(s: State, q: Queue, cfg: RiskConfig, e: UserOrder)
    requires Honest(q) && Books(s, cfg) && Placed(s)
    ensures Accountable(s, OnUserOrder(s, q, cfg, e), {})
  {
    hide Honest, Books, Placed, Sited, AccountTerminal, UpdateGroup, Accounts, Passes, Explained, Emits;
    OrderAccounts(s, s.desk);
    AccountsExplain(s, s);
    var found := FindRecord(s.desk, e.client, e.exchange);
    if found.Some? {
      var id := found.value;
      var d := Linked(s.desk, id, e.exchange);
      var o := UserOrderApplied(d.orders[id], e);
      var s1 := s.(desk := WithOrder(d, id, o));
      var s2 := AccountTerminal(s1, cfg, id);
      OrderAccounts(s, s1.desk);
      TerminalAccounts(s1, cfg, id);
      AccountsTrans(s, s1, s2);
      AccountsExplain(s, s2);
      NothingEmitted(s.wire);
      BooksRole(s, cfg, id, o, d.byExchange, d.nextRequest, s.wire);
      assert WithOrder(d, id, o).orders == s.desk.orders[id := o];
      BooksTerminal(s1, cfg, id);
      BooksSited(s2, cfg);
      DoubtUpdate(s2, q, cfg, id);
      DoubtAfter(s, s2, UpdateGroup(s2, q, cfg, id), {});
    }
  }

  lemma DoubtFill(s: State, q: Queue, cfg: RiskConfig, e: Fill)
    requires Honest(q) && Books(s, cfg) && Placed(s)
    ensures Accountable(s, OnFill(s, q, cfg, e), {})
  {
    hide Honest, Books, Placed, Sited, AccountTerminal, AccountFill, UpdateGroup, Accounts, Passes, Explained,
         Contributes;
    OrderAccounts(s, s.desk);
    AccountsExplain(s, s);
    var found := FindRecord(s.desk, e.client, e.exchange);
    if found.Some? {
      var id := found.value;
      var d := Linked(s.desk, id, e.exchange);
      LinkedStays(s, cfg, id, e.exchange);
      OrderAccounts(s, d);
      AccountsExplain(s, s.(desk := d));
      if e.trade.Some? && e.trade.value !in s.trades {
        var s1 := RecordTrade(s, d, id, e);
        var s2 := AccountFill(s1, cfg, id, e);
        var s3 := AccountTerminal(s2, cfg, id);
        RecordAccounts(s, d, id, e);
        FillAccounts(s1, cfg, id, e);
        AccountsTrans(s, s1, s2);
        TerminalAccounts(s2, cfg, id);
        AccountsTrans(s, s2, s3);
        AccountsExplain(s, s3);
        BooksFill(s, cfg, d, id, e);
        BooksTerminal(s2, cfg, id);
        BooksSited(s3, cfg);
        DoubtUpdate(s3, q, cfg, id);
        DoubtAfter(s, s3, UpdateGroup(s3, q, cfg, id), {});
      }
    }
  }

  lemma RecordAccounts(s: State, d: Desk, id: nat, e: Fill)
    requires id in s.desk.orders && d == Linked(s.desk, id, e.exchange) && e.trade.Some?
    ensures Accounts(s, RecordTrade(s, d, id, e))
  {
    hide Contributes;
  }

  /** Nothing is in doubt about a group that was just admitted. */
  lemma DoubtGroup(s: State, q: Queue, cfg: RiskConfig, intent: GroupIntent, now: nat, slots: Option<int>)
    requires Books(s, cfg) && Placed(s)
    ensures Accountable(s, OnGroup(s, q, cfg, intent, now, slots), {})
  {
    hide Books, Cause, AdmitGroup, Reserve, JudgeGroup, Accountable, Placed, IdsBelow, LegsPlaced;
    BooksSited(s, cfg);
    var (g, batch, first) := (s.nextGroup, s.desk.nextRequest, s.desk.nextRequest + 1);
    var required := JudgeGroup(s, cfg, intent, now, slots).1;
    var m := Reserve(s.money, cfg, intent.context.strategy, required).0;
    var s0 := s.(nextGroup := g + 1, desk := s.desk.(nextRequest := first + |intent.orders|), money := m);
    SameDoubt(s, s);
    SameDoubt(s, s0);
    DoubtAdmit(s, s0, q, cfg, intent, g, batch, first, required);
  }

  lemma SameDoubt(s: State, s': State)
    requires Placed(s) && s'.groups == s.groups && s'.desk.orders == s.desk.orders
    ensures Accountable(s, s', {})
  {
    hide Cause, RepairsPlaced;
  }

  lemma DoubtAdmit(s: State, s0: State, q: Queue, cfg: RiskConfig, intent: GroupIntent, g: nat, batch: nat,
                   first: nat, required: nat)
    requires Placed(s) && s0.groups == s.groups && s0.desk.orders == s.desk.orders
    requires IdsBelow(s.desk) && s.desk.nextRequest < first
    ensures Accountable(s, AdmitGroup(s0, q, cfg, intent, g, batch, first, required), {})
  {
    hide Cause, OpenOrders, ReleaseMoney, LegCommands, Send, WithLegs;
    var s' := AdmitGroup(s0, q, cfg, intent, g, batch, first, required);
    LegsAdded(s.desk.orders, intent, g, first, |intent.orders|);
    forall h | h in s'.groups ensures RepairsPlaced(s'.desk.orders, h, s'.groups[h].legs) {
      if h in s.groups && s'.groups[h] == s.groups[h] { assert RepairsPlaced(s.desk.orders, h, s.groups[h].legs); }
    }
  }

  lemma {:induction false} LegsAdded(orders: map<nat, Order>, intent: GroupIntent, g: nat, first: nat, n: nat)
    requires n <= |intent.orders| && forall id :: id in orders ==> id < first
    ensures forall id :: id in orders ==>
              id in WithLegs(orders, intent, g, first, n) && WithLegs(orders, intent, g, first, n)[id] == orders[id]
  {
    if n > 0 { LegsAdded(orders, intent, g, first, n - 1); }
  }

  lemma DoubtCancels(s: State, q: Queue, cfg: RiskConfig, ev: Event)
    requires Placed(s) && (ev.CancelArrives? || ev.CancelAllOrders?) && Enabled(s, cfg, ev)
    ensures Accountable(s, Step(s, q, cfg, ev), {})
  {
    hide Cause, CancelEach, Enumerates;
    match ev
    case CancelArrives(target) =>
      OrderAccounts(s, OnCancel(s, q, target).desk);
      AccountsExplain(s, OnCancel(s, q, target));
    case CancelAllOrders(ids) =>
      CancelTouches(s.desk, s.wire, q, ids, 0);
      AccountsExplain(s, OnCancelAll(s, q, ids));
  }

  lemma NewOrderAccounts(s: State, q: Queue, cfg: RiskConfig, o: NewOrder)
    requires Sited(s)
    ensures Accounts(s, OnNewOrder(s, q, cfg, o))
  {
    hide EnsurePortfolio, RecomputeAll, OpenOrders, Store, FullNotional, JudgeNewOrder, Send, LegsPlaced;
  }

  lemma ModifyAccounts(s: State, q: Queue, target: nat)
    ensures Accounts(s, OnModify(s, q, target))
  {
    hide Send;
  }

  /** Neither orders nor groups are touched. */
  lemma GateAccounts(s: State, q: Queue, cfg: RiskConfig, ev: Event)
    requires Enabled(s, cfg, ev)
    requires ev.PositionArrives? || ev.SnapshotArrives? || ev.AllowTrading? || ev.DisableTrading?
             || ev.ApplyUniverse? || ev.PumpReconciliation?
    ensures Accounts(s, Step(s, q, cfg, ev))
  {
    hide VenuePositionApplied, RecomputeAll, AdoptPositions, VenueByMarket, Send, ReconciliationDue, Accounts;
    var s' := Step(s, q, cfg, ev);
    assert s'.desk == s.desk && s'.groups == s.groups;
    SameAccounts(s, s');
  }

  lemma SameAccounts(s: State, s': State)
    requires s'.desk == s.desk && s'.groups == s.groups
    ensures Accounts(s, s')
  {
  }

  lemma DoubtQuietly(s: State, q: Queue, cfg: RiskConfig, ev: Event)
    requires Books(s, cfg) && Placed(s) && Enabled(s, cfg, ev)
    requires ev.PositionArrives? || ev.SnapshotArrives? || ev.AllowTrading? || ev.DisableTrading?
             || ev.ApplyUniverse? || ev.PumpReconciliation? || ev.ModifyArrives? || ev.NewOrderArrives?
    ensures Accountable(s, Step(s, q, cfg, ev), {})
  {
    hide Books, Sited, Accounts, Explained, Placed, OnNewOrder, OnModify, OnPosition, OnSnapshot, OnUniverse, Enabled,
         OnAllow, OnDisable, MaybeReconcile;
    BooksSited(s, cfg);
    match ev {
      case NewOrderArrives(o) => NewOrderAccounts(s, q, cfg, o);
      case ModifyArrives(target) => ModifyAccounts(s, q, target);
      case _ => GateAccounts(s, q, cfg, ev);
    }
    AccountsExplain(s, Step(s, q, cfg, ev));
  }

  /** Over an honest queue, every event that puts a group in doubt leaves a cause to be seen, or is a
      batch answer that could not be matched to the group's legs. */
  lemma DoubtStep(s: State, q: Queue, cfg: RiskConfig, ev: Event)
    requires Honest(q) && Books(s, cfg) && Placed(s) && Enabled(s, cfg, ev)
    ensures Explained(s, Step(s, q, cfg, ev), Unmatched(ev)) && Placed(Step(s, q, cfg, ev))
  {
    hide Books, Honest, Placed, Explained, OnNewOrder, OnCancel, OnModify, OnGroup, OnRest, OnBatch, OnUserOrder,
         OnFill, OnPosition, OnSnapshot, OnUniverse, ServiceEach, Enabled, OnAllow, OnDisable, OnCancelAll,
         MaybeReconcile, Unmatched;
    if !ev.BatchArrives? { OnlyBatches(ev); }
    match ev
    case GroupArrives(intent, now, slots) => DoubtGroup(s, q, cfg, intent, now, slots);
    case CancelArrives(target) => DoubtCancels(s, q, cfg, ev);
    case CancelAllOrders(ids) => DoubtCancels(s, q, cfg, ev);
    case RestArrives(r, target) => DoubtRest(s, q, cfg, r, target);
    case BatchArrives(b, targets) => BatchTargets(s, cfg, b, targets); DoubtBatch(s, q, cfg, b, targets);
    case UserOrderArrives(e) => DoubtUserOrder(s, q, cfg, e);
    case FillArrives(e) => DoubtFill(s, q, cfg, e);
    case ServiceIncidents(gs) => DoubtService(s, q, cfg, gs);
    case _ => DoubtQuietly(s, q, cfg, ev);
  }

  lemma OnlyBatches(ev: Event)
    requires !ev.BatchArrives?
    ensures Unmatched(ev) == {}
  {
  }

  // ------------------------------------------------------------------------ runs

  /** In every run over an honest queue, a group that is in doubt was put there by some event, after
      which the cause could be seen; no refused repair command ever puts one there. */
  lemma {:induction false} EveryDoubtHasCause(s: State, q: Queue, cfg: RiskConfig, evs: seq<Event>, g: nat)
    returns (n: nat)
    requires Honest(q) && ValidRisk(cfg) && Inv(s, cfg) && Placed(s) && ValidRun(s, q, cfg, evs)
    requires g in Run(s, q, cfg, evs).groups && Run(s, q, cfg, evs).groups[g].uncertain
    requires !(g in s.groups && s.groups[g].uncertain)
    ensures n < |evs|
    ensures var (s0, s1) := (StateAt(s, q, cfg, evs, n), StateAt(s, q, cfg, evs, n + 1));
            && !(g in s0.groups && s0.groups[g].uncertain)
            && g in s1.groups && s1.groups[g].uncertain && (Cause(s1, g) || g in Unmatched(evs[n]))
    decreases |evs|
  {
    hide Inv, Step, Enabled, Cause, Honest, Placed, Unmatched;
    var s1 := Step(s, q, cfg, evs[0]);
    InvStep(s, q, cfg, evs[0]);
    assert Books(s, cfg) by { InvBooks(s, cfg); }
    hide Books;
    DoubtStep(s, q, cfg, evs[0]);
    if g in s1.groups && s1.groups[g].uncertain {
      n := 0;
      assert StateAt(s, q, cfg, evs, 1) == s1;
    } else {
      n := EveryDoubtHasCause(s1, q, cfg, evs[1..], g);
      n := n + 1;
      assert StateAt(s, q, cfg, evs, n) == StateAt(s1, q, cfg, evs[1..], n - 1);
      assert StateAt(s, q, cfg, evs, n + 1) == StateAt(s1, q, cfg, evs[1..], n);
    }
  }

  lemma InvBooks(s: State, cfg: RiskConfig)
    requires Inv(s, cfg)
    ensures Books(s, cfg)
  {
  }

  /** So it is for an order manager that starts empty over the modelled ring, whatever the venue thread
      does meanwhile and however stale the producer's loads are. */
  lemma RingDoubtHasCause<T>(capacity: nat, steps: seq<S.Step<T>>, cfg: RiskConfig, evs: seq<Event>, g: nat)
    returns (n: nat)
    requires S.GoodCapacity(capacity) && S.ValidRun(S.Init(capacity), steps) && ValidRisk(cfg)
    requires ValidRun(Initial, AnswersOf(Uses(S.Init(capacity), steps)), cfg, evs)
    requires var s := Run(Initial, AnswersOf(Uses(S.Init(capacity), steps)), cfg, evs);
             g in s.groups && s.groups[g].uncertain
    ensures n < |evs|
    ensures var q := AnswersOf(Uses(S.Init(capacity), steps));
            var (s0, s1) := (StateAt(Initial, q, cfg, evs, n), StateAt(Initial, q, cfg, evs, n + 1));
            && !(g in s0.groups && s0.groups[g].uncertain)
            && g in s1.groups && s1.groups[g].uncertain && (Cause(s1, g) || g in Unmatched(evs[n]))
  {
    hide AnswersOf, Uses, S.ValidRun, Run, ValidRun, StateAt, Honest, Inv, Cause;
    RingIsHonest(capacity, steps);
    InitialInv(cfg);
    n := EveryDoubtHasCause(Initial, AnswersOf(Uses(S.Init(capacity), steps)), cfg, evs, g);
  }

  /** Honesty is needed: when the look shows room and the first cancel is refused all the same, a group
      about which nothing was in doubt is in doubt. */
  lemma BrokenPromiseDoubts(d: Desk, w: Wire, q: Queue, cfg: RiskConfig, g: nat, grp: Group, ids: seq<nat>)
    requires !grp.uncertain && grp.cancelRounds < cfg.maxRepairs && ids != []
    requires q.room(w.uses) >= |ids| && !q.accept(w.uses + 1) && CanCancel(d.orders, ids[0])
    ensures CancelRound(d, w, q, cfg, g, grp, ids).group.uncertain
  {
    var (d1, w1, ok) := EmitCancel(d, Looked(w), q, ids[0], g);
    SentAtMost(d1, w1, q, ids[1..], g);
  }

  lemma {:induction false} SentAtMost(d: Desk, w: Wire, q: Queue, ids: seq<nat>, g: nat)
    ensures CancelEach(d, w, q, ids, g).2 <= |ids|
    decreases |ids|
  {
    if ids != [] {
      var (d1, w1, ok) := EmitCancel(d, w, q, ids[0], g);
      SentAtMost(d1, w1, q, ids[1..], g);
    }
  }
}
