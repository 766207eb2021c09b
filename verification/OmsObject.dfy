/** The order management system as the mutable object the source keeps. Each method runs one
    operation in place and is proved to compute the specification of module Oms; each handler is
    one step of its state machine and keeps the invariant of module OmsRuns. */
module OmsObject {
  import opened Wrappers
  import opened Bits
  import opened Sums
  import opened OmsTypes
  import opened Oms
  import opened OmsRepair
  import opened OmsMoney
  import opened OmsBooks
  import opened OmsSteps
  import opened OmsHandlers
  import opened OmsGate
  import opened OmsEgress
  import opened OmsHistory
  import opened OmsRuns

  // What the leg scan of a healthy group establishes.
  datatype LegScan = LegScan(allFilled: bool, allEnded: bool, accounted: bool, anyFill: bool, anyPartial: bool,
                             anyFailed: bool, doubt: bool)

  function ScanOf(orders: map<nat, Order>, legs: seq<Leg>): LegScan {
    LegScan(AllLegs(orders, legs, IsFilled), AllLegs(orders, legs, HasEnded), AllLegs(orders, legs, HoldsNothing),
            SomeLeg(orders, legs, HasFill), SomeLeg(orders, legs, IsPartial), SomeLeg(orders, legs, HasFailed),
            LegInDoubt(orders, legs))
  }

  class OrderManager {
    const cfg: RiskConfig
    const queue: Queue
    var desk: Desk
    var wire: Wire
    var groups: map<nat, Group>
    var byIntent: map<(nat, nat), nat>
    var nextGroup: nat
    var trades: map<nat, Contribution>
    var money: Money
    var gate: Gate

    function View(): State
      reads this
    {
      State(desk, wire, groups, byIntent, nextGroup, trades, money, gate)
    }

    ghost predicate Valid()
      reads this
    {
      ValidRisk(cfg) && Inv(View(), cfg)
    }

    constructor (cfg: RiskConfig, queue: Queue)
      requires ValidRisk(cfg)
      ensures Valid() && View() == Initial && this.cfg == cfg && this.queue == queue
    {
      this.cfg := cfg;
      this.queue := queue;
      desk := Initial.desk;
      wire := Initial.wire;
      groups := map[];
      byIntent := map[];
      nextGroup := 1;
      trades := map[];
      money := Initial.money;
      gate := Initial.gate;
      new;
      InitialInv(cfg);
    }

    // ------------------------------------------------------------------- wire

    method SendCommand(cmd: Command) returns (ok: bool)
      modifies this`wire
      ensures (wire, ok) == Send(old(wire), queue, cmd)
    {
      ok := queue.accept(wire.uses);
      wire := Wire(wire.uses + 1, if ok then wire.log + [cmd] else wire.log);
    }

    method EmitCancelCommand(id: nat, repairOf: nat) returns (ok: bool)
      modifies this`desk, this`wire
      ensures (desk, wire, ok) == EmitCancel(old(desk), old(wire), queue, id, repairOf)
    {
      var command := desk.nextRequest;
      desk := desk.(nextRequest := command + 1);
      if id !in desk.orders || !IsCancelable(desk.orders[id].state) {
        return false;
      }
      ok := SendCommand(Cancel(command, id, repairOf));
      if ok {
        var o := desk.orders[id];
        desk := WithOrder(desk, id,
                          o.(previous := o.state, state := PendingCancel, pending := command,
                             pendingKind := CancelOrder));
      }
    }

    // ---------------------------------------------------------------- capital

    /** The saturating sum over every portfolio. */
    method GlobalReservations() returns (total: int)
      ensures total == GlobalReserved(money.portfolios)
    {
      hide Sum;
      total := 0;
      var rest := money.portfolios;
      while |rest| > 0
        invariant 0 <= total <= I64_MAX
        invariant total + Sum(rest, PositiveReserved) == Sum(money.portfolios, PositiveReserved)
        decreases |rest|
      {
        assert rest.Keys != {};
        var k :| k in rest.Keys;
        SumTake(rest, k, PositiveReserved);
        SumNonNegative(rest - {k}, PositiveReserved);
        if rest[k].reserved > I64_MAX - total {
          total := I64_MAX;
          break;
        }
        total := total + Max(0, rest[k].reserved);
        rest := rest - {k};
      }
      if |rest| == 0 { SumEmpty(rest, PositiveReserved); }
    }

    method RecomputeAvailable(k: nat)
      requires k in money.portfolios
      modifies this`money
      ensures money ==
              old(money).(portfolios :=
                  old(money).portfolios[k := Recomputed(old(money), cfg, old(money).portfolios[k])])
    {
      hide GlobalReserved;
      var p := money.portfolios[k];
      var reservations := Max(0, p.reserved);
      var inventory := Max(0, p.inventory);
      var committed := if inventory > I64_MAX - reservations then I64_MAX else reservations + inventory;
      var available := Max(0, p.limit - Min(p.limit, committed));
      if cfg.required {
        if !money.reconciled {
          available := 0;
        } else {
          var global := GlobalReservations();
          var afterSafety := Max(0, money.balance - Min(money.balance, Max(0, cfg.safety)));
          available := Min(available, Max(0, afterSafety - Min(afterSafety, global)));
        }
      }
      money := money.(portfolios := money.portfolios[k := p.(available := available)]);
    }

    method RecomputeAllAvailable()
      modifies this`money
      ensures money == RecomputeAll(old(money), cfg)
    {
      hide Recomputed;
      var todo := money.portfolios.Keys;
      while todo != {}
        invariant todo <= old(money).portfolios.Keys && money == HalfRecomputed(old(money), cfg, todo)
        decreases todo
      {
        var k :| k in todo;
        HalfRecomputedNext(old(money), cfg, todo, k);
        RecomputeAvailable(k);
        todo := todo - {k};
      }
    }

    method EnsureStrategyPortfolio(k: nat)
      modifies this`money
      ensures money == EnsurePortfolio(old(money), cfg, k)
    {
      if k !in money.portfolios {
        hide Recomputed;
        money := money.(portfolios := money.portfolios[k := Portfolio(cfg.limit, cfg.limit, 0, 0, 0, 0, 0, 0)]);
        RecomputeAvailable(k);
      }
    }

    method ReserveGroupCapital(k: nat, amount: nat) returns (ok: bool)
      modifies this`money
      ensures (money, ok) == Reserve(old(money), cfg, k, amount)
    {
      hide Recomputed;
      if amount == 0 || amount > I64_MAX {
        return false;
      }
      EnsureShape(money, cfg, k);
      EnsureStrategyPortfolio(k);
      var p := money.portfolios[k];
      if p.available < amount {
        return false;
      }
      money := money.(portfolios :=
          money.portfolios[k := p.(reserved := p.reserved + amount, activeGroups := p.activeGroups + 1)]);
      RecomputeAvailable(k);
      ok := true;
    }

    /** release_group_capital() on a group that is stored in the table. */
    method ReleaseGroupCapital(g: nat)
      requires g in groups
      modifies this`groups, this`money
      ensures View() == ReleaseGroup(old(View()), cfg, g, old(groups[g]))
    {
      hide Recomputed, EnsurePortfolio;
      var grp := groups[g];
      if grp.released {
        assert groups[g := grp] == groups;
        return;
      }
      var k := grp.context.strategy;
      EnsureShape(money, cfg, k);
      EnsureStrategyPortfolio(k);
      var p := money.portfolios[k];
      var released := Min(p.reserved, grp.reserved);
      money := money.(portfolios :=
          money.portfolios[k := p.(reserved := p.reserved - released, activeGroups := OneLess(p.activeGroups))]);
      groups := groups[g := grp.(reserved := grp.reserved - released, released := true)];
      RecomputeAvailable(k);
    }

    /** Take `amount` off the group of an order, if there is one. */
    method ReduceGroupCapital(g: nat, amount: int)
      modifies this`groups
      ensures groups == ReduceGroup(old(groups), g, amount)
    {
      if g in groups {
        var grp := groups[g];
        groups := groups[g := grp.(reserved := grp.reserved - Min(grp.reserved, Max(0, amount)))];
      }
    }

    method AccountTerminalOrder(id: nat)
      requires id in desk.orders
      modifies this`desk, this`groups, this`money
      ensures View() == AccountTerminal(old(View()), cfg, id)
    {
      hide EnsurePortfolio, RecomputeAll, ReduceGroup;
      var o := desk.orders[id];
      if !IsTerminal(o.state) || o.accounted {
        return;
      }
      var k := o.context.strategy;
      EnsureShape(money, cfg, k);
      EnsureStrategyPortfolio(k);
      var p := money.portfolios[k];
      var released := 0;
      if !o.state.Filled? && o.reserved > 0 {
        released := Min(p.reserved, o.reserved);
      }
      money := Store(money, k, p.(openOrders := OneLess(p.openOrders), reserved := p.reserved - released));
      desk := WithOrder(desk, id, o.(accounted := true, reserved := o.reserved - released));
      ReduceGroupCapital(o.group, released);
      RecomputeAllAvailable();
    }

    // ------------------------------------------------------------------ fills

    /** The residual of the leg an order belongs to, with the overflow guard. */
    method AccountResidual(o: Order, e: Fill)
      requires WellFormedFill(o, e)
      modifies this`groups
      ensures groups == FilledGroups(old(groups), o, e)
    {
      if o.group in groups && o.leg < |groups[o.group].legs| {
        var grp := groups[o.group];
        var lots := FillLots(o, e);
        var residual := grp.legs[o.leg].residual;
        if (lots > 0 && residual > I64_MAX - lots) || (lots < 0 && residual < I64_MIN - lots) {
          groups := groups[o.group := grp.(uncertain := true, overflowed := true)];
        } else {
          groups := groups[o.group := grp.(legs := grp.legs[o.leg := grp.legs[o.leg].(residual := residual + lots)])];
        }
      } else if o.group in groups {
        assert groups[o.group := groups[o.group]] == groups;
      }
    }

    method AccountFillOf(id: nat, e: Fill)
      requires id in desk.orders
      modifies this`desk, this`groups, this`money, this`gate
      ensures View() == AccountFill(old(View()), cfg, id, e)
    {
      hide EnsurePortfolio, RecomputeAll, ReduceGroup, FilledGroups, FilledPosition, FillLots, YesPrice,
           WellFormedFill, FullNotional;
      var o := desk.orders[id];
      if !WellFormedFill(o, e) {
        return;
      }
      AccountResidual(o, e);
      var k := o.context.strategy;
      EnsureShape(money, cfg, k);
      EnsureStrategyPortfolio(k);
      var was := PositionOf(money, k, o.market, o.context.event);
      if was.net == I64_MIN || FillLots(o, e) == I64_MIN {
        money := money.(positions := money.positions[(k, o.market) := was]);
        return;
      }
      money := FilledPositionStored(money, k, o, e, was);
      var released := FillRelease(o, e);
      var p := money.portfolios[k];
      money := Store(money, k, p.(reserved := p.reserved - Min(p.reserved, released)));
      desk := WithOrder(desk, id, o.(reserved := o.reserved - released));
      ReduceGroupCapital(o.group, released);
      RecomputeAllAvailable();
      gate := gate.(reconcileNeeded := cfg.required);
    }

    // ----------------------------------------------------------------- repair

    method LatchIncident()
      modifies this`gate
      ensures gate == Latch(old(gate))
    {
      gate := gate.(incident := true);
      if gate.trading {
        gate := gate.(trading := false);
      }
    }

    /** refresh_execution_incident_latch(): a scan of the group table. */
    method RefreshIncident()
      modifies this`gate
      ensures gate == old(gate).(incident := AnyBroken(groups))
    {
      var active := false;
      var todo := groups.Keys;
      while todo != {} && !active
        invariant todo <= groups.Keys
        invariant active ==> AnyBroken(groups)
        invariant !active ==> forall g :: g in groups && g !in todo ==> !Broken(groups[g].state)
        decreases todo
      {
        var g :| g in todo;
        if Broken(groups[g].state) {
          active := true;
        }
        todo := todo - {g};
      }
      gate := gate.(incident := active);
    }

    method HasResidualExposure(legs: seq<Leg>) returns (found: bool)
      ensures found == HasResidual(legs)
    {
      found := false;
      for i := 0 to |legs|
        invariant found <==> exists j :: 0 <= j < i && legs[j].residual != 0
      {
        if legs[i].residual != 0 {
          found := true;
        }
      }
    }

    method HasConfirmedFill(legs: seq<Leg>) returns (found: bool)
      ensures found == SomeLeg(desk.orders, legs, HasFill)
    {
      found := false;
      for i := 0 to |legs|
        invariant found <==> exists j ::
                    0 <= j < i && legs[j].request in desk.orders && HasFill(desk.orders[legs[j].request])
      {
        if legs[i].request in desk.orders && desk.orders[legs[i].request].filled > 0 {
          found := true;
        }
      }
    }

    /** The first scan of continue_group_repair(). */
    method ScanOriginals(legs: seq<Leg>) returns (ids: seq<nat>, pending: bool, doubt: bool)
      ensures ids == Cancelables(desk.orders, legs)
      ensures pending == SomeLeg(desk.orders, legs, CancelIsPending)
      ensures doubt == LegInDoubt(desk.orders, legs)
    {
      ids, pending, doubt := [], false, false;
      for i := 0 to |legs|
        invariant ids == Cancelables(desk.orders, legs[..i])
        invariant pending <==> exists j ::
                    0 <= j < i && legs[j].request in desk.orders && CancelIsPending(desk.orders[legs[j].request])
        invariant doubt <==> exists j ::
                    0 <= j < i && (legs[j].request !in desk.orders || desk.orders[legs[j].request].state.Uncertain?)
      {
        CancelablesNext(desk.orders, legs, i);
        if legs[i].request !in desk.orders {
          doubt := true;
        } else {
          var st := desk.orders[legs[i].request].state;
          if st.Uncertain? {
            doubt := true;
          }
          if st.PendingCancel? {
            pending := true;
          } else if IsCancelable(st) {
            ids := ids + [legs[i].request];
          }
        }
      }
      assert legs[..|legs|] == legs;
    }

    /** The scan over active repair orders, which forgets those that ended. */
    method ScanRepairs(legs: seq<Leg>) returns (kept: seq<Leg>, live: bool, doubt: bool)
      ensures kept == RetireRepairs(desk.orders, legs)
      ensures live == RepairLive(desk.orders, legs)
      ensures doubt == RepairInDoubt(desk.orders, legs)
    {
      kept, live, doubt := legs, false, false;
      for i := 0 to |legs|
        invariant |kept| == |legs| && forall j ::
                    0 <= j < |legs| ==> kept[j] == if j < i then RetireRepairs(desk.orders, legs)[j] else legs[j]
        invariant live <==> exists j :: 0 <= j < i && legs[j].repair != 0 && legs[j].repair in desk.orders &&
                                        !desk.orders[legs[j].repair].state.Uncertain?
                                            && IsLive(desk.orders[legs[j].repair].state)
        invariant doubt <==> exists j :: 0 <= j < i && legs[j].repair != 0 &&
                                         (legs[j].repair !in desk.orders
                                          || desk.orders[legs[j].repair].state.Uncertain?)
      {
        var id := legs[i].repair;
        if id != 0 {
          if id !in desk.orders || desk.orders[id].state.Uncertain? {
            doubt := true;
          } else if IsLive(desk.orders[id].state) {
            live := true;
          } else {
            kept := kept[i := legs[i].(repair := 0)];
          }
        }
      }
    }

    method CountResiduals(legs: seq<Leg>) returns (n: nat)
      ensures n == ResidualCount(legs)
    {
      n := 0;
      for i := 0 to |legs|
        invariant n == ResidualCount(legs[..i])
      {
        ResidualCountNext(legs, i);
        if legs[i].residual != 0 {
          n := n + 1;
        }
      }
      assert legs[..|legs|] == legs;
    }

    method FailGroupRepair(g: nat, reason: FailureReason)
      requires g in groups
      modifies this`groups, this`gate
      ensures View() == ApplyRepair(old(View()), cfg, g, FailRepair(desk, wire, old(groups[g]), reason))
    {
      hide AnyBroken, OpenOrders, ReleaseGroup;
      var grp := groups[g];
      var exposed := HasResidualExposure(grp.legs);
      groups := groups[g := grp.(state := RepairFailed, failure := reason, exposed := exposed)];
      LatchIncident();
    }

    /** The cancel loop over the ids a scan found. */
    method CancelAllOf(ids: seq<nat>, repairOf: nat) returns (sent: nat)
      modifies this`desk, this`wire
      ensures (desk, wire, sent) == CancelEach(old(desk), old(wire), queue, ids, repairOf)
    {
      sent := 0;
      for i := 0 to |ids|
        invariant var r := CancelEach(old(desk), old(wire), queue, ids, repairOf);
                  var t := CancelEach(desk, wire, queue, ids[i..], repairOf);
                  r == (t.0, t.1, t.2 + sent)
      {
        assert ids[i..][0] == ids[i] && ids[i..][1..] == ids[i + 1..];
        var ok := EmitCancelCommand(ids[i], repairOf);
        if ok {
          sent := sent + 1;
        }
      }
      assert ids[|ids|..] == [];
    }

    method RunCancelRound(g: nat, ids: seq<nat>)
      requires g in groups
      modifies this`desk, this`wire, this`groups, this`gate
      ensures View() ==
              ApplyRepair(old(View()), cfg, g, CancelRound(old(desk), old(wire), queue, cfg, g, old(groups[g]), ids))
    {
      hide ApplyRepair, CancelEach, FailRepair;
      var grp := groups[g];
      if grp.cancelRounds >= cfg.maxRepairs {
        if grp.uncertain {
          ApplyHold(View(), cfg, g, grp.(state := GroupUncertain));
          groups := groups[g := grp.(state := GroupUncertain)];
        } else {
          FailGroupRepair(g, CancelFailed);
        }
      } else {
        ghost var s0 := View();
        var room := LookAtRoom();
        if room < |ids| {
          var held := grp.(state := if grp.uncertain then GroupUncertain else RepairRequired);
          ApplyHold(View(), cfg, g, held);
          ApplyLooked(s0, cfg, g, Hold(desk, wire, held));
          groups := groups[g := held];
        } else {
          SendCancelRound(g, ids, s0);
        }
      }
    }

    /** The room a producer sees in the venue queue. */
    method LookAtRoom() returns (room: int)
      modifies this`wire
      ensures room == queue.room(old(wire).uses) && wire == Looked(old(wire))
    {
      room := queue.room(wire.uses);
      wire := Looked(wire);
    }

    /** The round itself, once there are attempts and room left. */
    method SendCancelRound(g: nat, ids: seq<nat>, ghost s0: State)
      requires g in groups && groups[g].cancelRounds < cfg.maxRepairs && queue.room(s0.wire.uses) >= |ids|
      requires View() == s0.(wire := Looked(s0.wire))
      modifies this`desk, this`wire, this`groups, this`gate
      ensures View() == ApplyRepair(s0, cfg, g, CancelRound(s0.desk, s0.wire, queue, cfg, g, s0.groups[g], ids))
    {
      hide AnyBroken, OpenOrders, ReleaseGroup, CancelEach, FailRepair, Latch;
      var grp := groups[g];
      var sent := CancelAllOf(ids, g);
      ghost var r := CancelRound(s0.desk, s0.wire, queue, cfg, g, s0.groups[g], ids);
      assert r.desk == desk && r.wire == wire && !r.done && !r.latch && r.placed == 0;
      if sent != |ids| {
        grp := grp.(uncertain := true);
      }
      if sent > 0 {
        grp := grp.(cancelRounds := grp.cancelRounds + 1);
      }
      grp := grp.(state := if grp.uncertain then GroupUncertain else CancelingRemainder);
      groups := groups[g := grp];
      if grp.uncertain {
        gate := gate.(reconcileNeeded := cfg.required);
      }
    }

    /** The submit loop: each order is recorded before it is sent and erased when the push fails. */
    method SubmitRepairs(g: nat, legs: seq<Leg>) returns (r: Submitted)
      requires IdsBelow(desk)
      modifies this`desk, this`wire
      ensures r == SubmitEach(old(desk), old(wire), queue, g, legs, 0, 0)
      ensures r.desk == desk && r.wire == wire
    {
      hide RepairOrder, RepairIntent;
      var now, i, sent := legs, 0, 0;
      while i < |legs|
        invariant i <= |legs| == |now| && IdsBelow(desk)
        invariant SubmitEach(old(desk), old(wire), queue, g, legs, 0, 0) ==
                  SubmitEach(desk, wire, queue, g, now, i, sent)
      {
        if now[i].residual != 0 {
          if Unrepairable(desk, now[i]) {
            return Submitted(desk, wire, now, sent, true);
          }
          var original := desk.orders[now[i].request];
          var id := desk.nextRequest;
          ghost var before := desk.(nextRequest := id + 1);
          desk := WithOrder(desk.(nextRequest := id + 1), id, RepairOrder(original, id, g, i, now[i].residual));
          var ok := SendCommand(Submit(id, RepairIntent(original, i, now[i].residual), true, g));
          if !ok {
            desk := desk.(orders := desk.orders - {id});
            assert desk == before;
            return Submitted(desk, wire, now[i := now[i].(repair := 0)], sent, sent > 0);
          }
          now := now[i := now[i].(repair := id)];
          sent := sent + 1;
        }
        i := i + 1;
      }
      r := Submitted(desk, wire, now, sent, false);
    }

    method RunSubmitRound(g: nat)
      requires g in groups && IdsBelow(desk)
      modifies this`desk, this`wire, this`groups, this`gate, this`money
      ensures View() == ApplyRepair(old(View()), cfg, g, SubmitRound(old(desk), old(wire), queue, g, old(groups[g])))
    {
      hide AnyBroken, EnsurePortfolio, ReleaseGroup, SubmitEach, HasResidual;
      var grp := groups[g];
      var r := SubmitRepairs(g, grp.legs);
      grp := grp.(legs := r.legs);
      if r.sent > 0 {
        grp := grp.(submitRounds := grp.submitRounds + 1);
      }
      if r.doubt {
        groups := groups[g := grp.(uncertain := true, state := GroupUncertain, failure := VenueStateUncertain)];
        LatchIncident();
        return;
      }
      if r.sent == 0 {
        groups := groups[g := grp];
        return;
      }
      groups := groups[g := grp.(repairRounds := grp.repairRounds + 1, state := Unwinding)];
      CountOpenOrders(grp.context.strategy, r.sent);
    }

    method CountOpenOrders(k: nat, n: nat)
      modifies this`money
      ensures money == OpenOrders(old(money), cfg, k, n)
    {
      hide EnsurePortfolio;
      EnsureShape(money, cfg, k);
      EnsureStrategyPortfolio(k);
      money := Store(money, k, money.portfolios[k].(openOrders := money.portfolios[k].openOrders + n));
    }

    /** continue_group_repair() once no original leg is left to cancel. */
    method UnwindGroup(g: nat)
      requires g in groups && IdsBelow(desk)
      modifies this`desk, this`wire, this`groups, this`gate, this`money
      ensures View() == ApplyRepair(old(View()), cfg, g, Unwind(old(desk), old(wire), queue, cfg, g, old(groups[g])))
    {
      hide AnyBroken, OpenOrders, ReleaseGroup, HasResidual, RetireRepairs, RepairLive, RepairInDoubt, ResidualCount,
           SomeLeg, SubmitRound;
      ghost var s0 := View();
      var grp := groups[g];
      var kept, live, doubt := ScanRepairs(grp.legs);
      var exposed := HasResidualExposure(kept);
      SameExposureAfterScan(desk.orders, grp.legs);
      grp := grp.(uncertain := grp.uncertain || doubt, legs := kept, exposed := exposed);
      var n := CountResiduals(grp.legs);
      if grp.uncertain {
        groups := groups[g := grp.(state := GroupUncertain, failure := VenueStateUncertain)];
        gate := gate.(reconcileNeeded := cfg.required);
      } else if !exposed {
        var filled := HasConfirmedFill(grp.legs);
        SameLegsFilled(desk.orders, old(groups[g]).legs);
        grp := grp.(state := if filled then Flattened else Aborted,
                    failure := if filled then grp.failure else NoFailure);
        groups := groups[g := grp];
        ReleaseGroupCapital(g);
        RefreshIncident();
      } else if live {
        groups := groups[g := grp.(state := Unwinding)];
      } else if grp.repairRounds >= cfg.maxRepairs {
        groups := groups[g := grp];
        FailGroupRepair(g, UnwindFailed);
        ApplyTwice(s0, cfg, g, grp, FailRepair(desk, wire, grp, UnwindFailed));
      } else {
        var room := LookAtRoom();
        if room < n {
          groups := groups[g := grp.(state := RepairRequired)];
        } else {
          groups := groups[g := grp];
          ghost var r := SubmitRound(desk, wire, queue, g, grp);
          ApplyLooked(s0.(groups := groups), cfg, g, r);
          ApplyTwice(s0, cfg, g, grp, r);
          RunSubmitRound(g);
        }
      }
    }

    method ContinueGroupRepair(g: nat)
      requires g in groups && IdsBelow(desk)
      modifies this`desk, this`wire, this`groups, this`gate, this`money
      ensures View() == ContinueRepair(old(View()), queue, cfg, g, old(groups[g]))
    {
      hide ApplyRepair, Cancelables, SomeLeg, LegInDoubt, CancelRound, Unwind;
      ghost var s0 := View();
      var grp := groups[g];
      if grp.released || grp.state.RepairFailed? {
        assert groups[g := grp] == groups;
        return;
      }
      var ids, pending, doubt := ScanOriginals(grp.legs);
      grp := grp.(uncertain := grp.uncertain || doubt);
      groups := groups[g := grp];
      if ids != [] {
        RunCancelRound(g, ids);
        ApplyTwice(s0, cfg, g, grp, CancelRound(s0.desk, s0.wire, queue, cfg, g, grp, ids));
      } else if pending {
        groups := groups[g := grp.(state := if grp.uncertain then GroupUncertain else CancelingRemainder)];
        ApplyHold(s0, cfg, g, grp.(state := UncertainOr(grp.uncertain, CancelingRemainder)));
      } else {
        UnwindGroup(g);
        ApplyTwice(s0, cfg, g, grp, Unwind(s0.desk, s0.wire, queue, cfg, g, grp));
      }
    }

    /** begin_group_repair(). */
    method BeginGroupRepair(g: nat, reason: FailureReason)
      requires g in groups && IdsBelow(desk)
      modifies this`desk, this`wire, this`groups, this`gate, this`money
      ensures View() == BeginRepair(old(View()), queue, cfg, g, old(groups[g]), reason)
    {
      hide ContinueRepair, HasResidual;
      ghost var s0 := View();
      var grp := groups[g];
      if reason.VenueStateUncertain? {
        grp := grp.(uncertain := true);
      }
      var exposed := HasResidualExposure(grp.legs);
      grp := grp.(failure := reason, exposed := exposed,
                  state := if grp.uncertain then GroupUncertain else RepairRequired);
      groups := groups[g := grp];
      LatchIncident();
      ContinueStored(s0.(gate := Latch(s0.gate)), queue, cfg, g, grp);
      ContinueGroupRepair(g);
    }

    /** service_execution_incidents(); `order` is the order the table was walked in. */
    method ServiceExecutionIncidents() returns (order: seq<nat>)
      requires Valid()
      modifies this`desk, this`wire, this`groups, this`gate, this`money
      ensures Valid()
      ensures Enumerates(order, old(groups).Keys)
      ensures View() == Step(old(View()), queue, cfg, ServiceIncidents(order))
    {
      order := [];
      var todo := groups.Keys;
      ghost var s0 := View();
      hide Inv, ContinueRepair;
      while todo != {}
        invariant Valid() && todo <= s0.groups.Keys && groups.Keys == s0.groups.Keys
        invariant View() == ServiceEach(s0, queue, cfg, order)
        invariant Walked(order, todo, s0.groups.Keys)
        decreases todo
      {
        var g :| g in todo;
        ghost var s1 := View();
        ServiceNext(s0, queue, cfg, order, g);
        if NeedsService(groups[g].state) {
          InvIds(s1, cfg);
          InvContinue(s1, queue, cfg, g);
          ContinueKeys(s1, queue, cfg, g, s1.groups[g]);
          ContinueGroupRepair(g);
        }
        WalkedNext(order, todo, s0.groups.Keys, g);
        order := order + [g];
        todo := todo - {g};
      }
      WalkedAll(order, todo, s0.groups.Keys);
    }

    /** The leg scan of update_group_after_order_state_change(). */
    method ScanLegs(legs: seq<Leg>) returns (scan: LegScan)
      ensures scan == ScanOf(desk.orders, legs)
    {
      hide IsTerminal, ScanOf;
      scan := LegScan(true, true, true, false, false, false, false);
      assert legs[..0] == [];
      ScanNone(desk.orders);
      for i := 0 to |legs|
        invariant scan == ScanOf(desk.orders, legs[..i])
      {
        ScanNext(desk.orders, legs, i);
        if legs[i].request !in desk.orders {
          scan := scan.(doubt := true, allFilled := false, allEnded := false, accounted := false);
        } else {
          var leg := desk.orders[legs[i].request];
          scan := LegScan(
            scan.allFilled && leg.state.Filled?,
            scan.allEnded && IsTerminal(leg.state),
            scan.accounted && leg.reserved == 0,
            scan.anyFill || leg.filled > 0,
            scan.anyPartial || leg.state.PartiallyFilled?,
            scan.anyFailed || (IsTerminal(leg.state) && !leg.state.Filled?),
            scan.doubt || leg.state.Uncertain?);
        }
      }
      assert legs[..|legs|] == legs;
    }

    /** The classification of a healthy group. */
    method SettleHealthyGroup(g: nat)
      requires g in groups && IdsBelow(desk)
      modifies this`desk, this`wire, this`groups, this`gate, this`money
      ensures View() == SettleGroup(old(View()), queue, cfg, g, old(groups[g]))
    {
      hide BeginRepair, ReleaseGroup, AllLegs, SomeLeg, LegInDoubt, HasResidual;
      ghost var s0 := View();
      var was := groups[g];
      var scan := ScanLegs(was.legs);
      var exposed := HasResidualExposure(was.legs);
      var grp := was.(exposed := exposed);
      if scan.doubt || was.uncertain || (scan.allFilled && !scan.accounted) {
        groups := groups[g := grp];
        BeginStored(s0, queue, cfg, g, grp, VenueStateUncertain);
        BeginGroupRepair(g, VenueStateUncertain);
      } else if scan.allFilled || (scan.allEnded && !scan.anyFill) {
        grp := grp.(state := if scan.allFilled then Completed else Aborted, failure := NoFailure, exposed := false);
        groups := groups[g := grp];
        ReleaseStored(s0, cfg, g, grp);
        ReleaseGroupCapital(g);
      } else if scan.anyPartial || scan.anyFailed || (scan.allEnded && scan.anyFill) {
        groups := groups[g := grp];
        BeginStored(s0, queue, cfg, g, grp, LegPartiallyFilled);
        BeginGroupRepair(g, LegPartiallyFilled);
      } else {
        groups := groups[g := grp.(state := if scan.anyFill then GroupPartiallyFilled else GroupWorking)];
      }
    }

    /** update_group_after_order_state_change(). */
    method UpdateGroupAfter(id: nat)
      requires IdsBelow(desk)
      modifies this`desk, this`wire, this`groups, this`gate, this`money
      ensures View() == UpdateGroup(old(View()), queue, cfg, id)
    {
      hide ContinueRepair, SettleGroup;
      ghost var s0 := View();
      if id !in desk.orders || desk.orders[id].group == 0 || desk.orders[id].group !in groups {
        return;
      }
      var o := desk.orders[id];
      var was := groups[o.group];
      if o.repair || Broken(was.state) {
        var grp := was;
        if o.state.Uncertain? {
          grp := grp.(uncertain := true);
        }
        groups := groups[o.group := grp];
        ContinueStored(s0, queue, cfg, o.group, grp);
        ContinueGroupRepair(o.group);
      } else if !was.released {
        SettleHealthyGroup(o.group);
      }
    }

    // ---------------------------------------------------------- strategy intents

    /** Reserve capital for a judged order and send it, or give the capital back. */
    method ReserveAndSend(o: NewOrder, id: nat, amount: nat) returns (ok: bool)
      requires o.context.strategy in money.portfolios
      modifies this`desk, this`wire, this`money
      ensures var k := o.context.strategy;
              var p := old(money.portfolios[k]);
              var m1 := RecomputeAll(Store(old(money), k, p.(reserved := p.reserved + amount)), cfg);
              var p1 := PortfolioOf(m1, cfg, k);
              && (wire, ok) == Send(old(wire), queue, Submit(id, o, false, 0))
              && desk ==
              (if ok then WithOrder(old(desk), id, FreshOrder(o, 0, UnknownCommand, 0, 0, amount)) else old(desk))
              && money == if ok then OpenOrders(m1, cfg, k, 1)
              else RecomputeAll(Store(m1, k, p1.(reserved := p1.reserved - amount)), cfg)
    {
      hide RecomputeAll, OpenOrders, Send;
      var k := o.context.strategy;
      var p := money.portfolios[k];
      money := Store(money, k, p.(reserved := p.reserved + amount));
      RecomputedKey(money, cfg, k);
      RecomputeAllAvailable();
      ok := SendCommand(Submit(id, o, false, 0));
      if ok {
        desk := WithOrder(desk, id, FreshOrder(o, 0, UnknownCommand, 0, 0, amount));
        CountOpenOrders(k, 1);
      } else {
        var p1 := money.portfolios[k];
        money := Store(money, k, p1.(reserved := p1.reserved - amount));
        RecomputeAllAvailable();
      }
    }

    method OnNewOrderIntent(o: NewOrder) returns (reject: Option<RejectReason>)
      requires Valid()
      modifies this`desk, this`wire, this`money
      ensures Valid()
      ensures View() == Step(old(View()), queue, cfg, NewOrderArrives(o))
      ensures reject.None? <==> old(desk).nextRequest in desk.orders
      ensures JudgeNewOrder(old(View()), cfg, o).Some? ==> reject == JudgeNewOrder(old(View()), cfg, o)
    {
      hide Inv, EnsurePortfolio, RecomputeAll, JudgeNewOrder, FullNotional, OpenOrders, Send, Store, FreshOrder;
      ghost var s0 := View();
      InvStep(s0, queue, cfg, NewOrderArrives(o));
      InvIds(s0, cfg);
      var id := desk.nextRequest;
      desk := desk.(nextRequest := id + 1);
      reject := JudgeNewOrder(View(), cfg, o);
      JudgeIgnoresIds(s0, View(), cfg, o);
      if reject.None? {
        JudgedOrderHasNotional(s0, cfg, o);
        var k := o.context.strategy;
        var amount := FullNotional(o.quantity).value;
        EnsureShape(money, cfg, k);
        EnsureStrategyPortfolio(k);
        if money.portfolios[k].available < amount {
          reject := Some(RiskRejected);
        } else {
          var ok := ReserveAndSend(o, id, amount);
          if !ok {
            reject := Some(NotReady);
          }
        }
      }
    }

    method OnCancelIntent(target: nat) returns (ok: bool)
      requires Valid()
      modifies this`desk, this`wire
      ensures Valid()
      ensures View() == Step(old(View()), queue, cfg, CancelArrives(target))
      ensures ok == EmitCancel(old(desk), old(wire), queue, target, 0).2
    {
      hide Inv, EmitCancel;
      InvStep(View(), queue, cfg, CancelArrives(target));
      ok := EmitCancelCommand(target, 0);
    }

    method OnModifyIntent(target: nat) returns (ok: bool)
      requires Valid()
      modifies this`desk, this`wire
      ensures Valid()
      ensures View() == Step(old(View()), queue, cfg, ModifyArrives(target))
      ensures ok <==> |wire.log| > |old(wire).log|
    {
      hide Inv;
      InvStep(View(), queue, cfg, ModifyArrives(target));
      var id := desk.nextRequest;
      desk := desk.(nextRequest := id + 1);
      if gate.incident || target !in desk.orders {
        return false;
      }
      ok := SendCommand(Modify(id, target));
      if ok {
        var o := desk.orders[target];
        desk := WithOrder(desk, target,
                          o.(previous := o.state, state := PendingModify, pending := id, pendingKind := ModifyOrder));
      }
    }

    // ---------------------------------------------------------- group admission

    method RepeatsEarlierLeg(orders: seq<NewOrder>, i: nat) returns (found: bool)
      requires i < |orders|
      ensures found == RepeatsEarlier(orders, i)
    {
      found := false;
      for j := 0 to i
        invariant found <==> exists l :: 0 <= l < j && (orders[l].context.market == orders[i].context.market ||
                                                        orders[l].context.strategyIntent ==
                                                        orders[i].context.strategyIntent)
      {
        if orders[j].context.market == orders[i].context.market
            || orders[j].context.strategyIntent == orders[i].context.strategyIntent {
          found := true;
        }
      }
    }

    method CheckLeg(intent: GroupIntent, i: nat) returns (reason: Option<RejectReason>)
      requires i < |intent.orders|
      ensures reason == JudgeLeg(gate.universe, intent, i)
    {
      hide SameEnvelope, LegShape, TimestampChain, RouteOf, RepeatsEarlier;
      var leg := intent.orders[i];
      if !SameEnvelope(leg.context, intent.context, i, |intent.orders|) {
        return Some(InvalidIntent);
      }
      if !LegShape(leg) {
        return Some(InvalidIntent);
      }
      if !TimestampChain(leg.context) {
        return Some(InvalidIntent);
      }
      var route := RouteOf(gate.universe, leg.context.market);
      if route.None? {
        return Some(UnknownMarket);
      }
      if !route.value.tradeable {
        return Some(MarketNotTradeable);
      }
      if route.value.event != intent.context.event {
        return Some(InvalidIntent);
      }
      var repeats := RepeatsEarlierLeg(intent.orders, i);
      return if repeats then Some(InvalidIntent) else None;
    }

    /** check_group_admission(). */
    method CheckGroupAdmission(intent: GroupIntent, now: nat, slots: Option<int>)
      returns (reason: Option<RejectReason>, required: nat)
      ensures (reason, required) == JudgeGroup(View(), cfg, intent, now, slots)
    {
      hide JudgeEnvelope, JudgeLeg, FullNotional;
      required := 0;
      reason := JudgeEnvelope(View(), cfg, intent, now, slots);
      if reason.Some? {
        return;
      }
      var i := 0;
      while i < |intent.orders|
        invariant i <= |intent.orders|
        invariant JudgeLegs(gate.universe, intent, 0, 0) == JudgeLegs(gate.universe, intent, i, required)
      {
        reason := CheckLeg(intent, i);
        if reason.Some? {
          required := 0;
          return;
        }
        var notional := FullNotional(intent.orders[i].quantity);
        if notional.None? || required > U64_MAX - notional.value {
          return Some(RiskRejected), 0;
        }
        required := required + notional.value;
        i := i + 1;
      }
      var available := cfg.limit;
      if intent.context.strategy in money.portfolios {
        available := money.portfolios[intent.context.strategy].available;
      }
      if required == 0 || required > cfg.maxGroupReservation || required > I64_MAX || available < 0
          || required > available {
        return Some(RiskRejected), 0;
      }
      reason := None;
    }

    /** The records of an admitted group: table entries, then the batch, or all of it undone. */
    method StoreLegs(intent: GroupIntent, g: nat, first: nat)
      modifies this`desk
      ensures desk == old(desk).(orders := WithLegs(old(desk).orders, intent, g, first, |intent.orders|))
    {
      hide LegOrder;
      for i := 0 to |intent.orders|
        invariant desk == old(desk).(orders := WithLegs(old(desk).orders, intent, g, first, i))
      {
        var id := first + i;
        desk := desk.(orders := desk.orders[id := LegOrder(intent, g, first, i)]);
      }
    }

    method EraseLegs(n: nat, first: nat)
      modifies this`desk
      ensures desk ==
              old(desk).(orders := map id | id in old(desk).orders && !(first <= id < first + n) ::
                           old(desk).orders[id])
    {
      for i := 0 to n
        invariant desk ==
                  old(desk).(orders := map id | id in old(desk).orders && !(first <= id < first + i) ::
                               old(desk).orders[id])
      {
        desk := desk.(orders := desk.orders - {first + i});
      }
    }

    method OnGroupIntent(intent: GroupIntent, now: nat, slots: Option<int>) returns (reject: Option<RejectReason>)
      requires Valid()
      modifies this
      ensures Valid()
      ensures View() == Step(old(View()), queue, cfg, GroupArrives(intent, now, slots))
      ensures reject.None? <==> old(nextGroup) in groups
      ensures JudgeGroup(old(View()), cfg, intent, now, slots).0.Some? ==>
                reject == JudgeGroup(old(View()), cfg, intent, now, slots).0
    {
      hide Inv, JudgeGroup, Reserve, AdmitGroup;
      ghost var s0 := View();
      InvStep(s0, queue, cfg, GroupArrives(intent, now, slots));
      FreshIds(s0, cfg, intent, now, slots);
      var required;
      reject, required := CheckGroupAdmission(intent, now, slots);
      if reject.None? {
        var g, batch, first := nextGroup, desk.nextRequest, desk.nextRequest + 1;
        nextGroup := g + 1;
        desk := desk.(nextRequest := first + |intent.orders|);
        var ok := ReserveGroupCapital(intent.context.strategy, required);
        if !ok {
          reject := Some(RiskRejected);
        } else {
          var sent := AdmitReserved(intent, g, batch, first, required);
          if !sent {
            reject := Some(NotReady);
          }
        }
      }
    }

    /** The rest of admission once capital is reserved. */
    method AdmitReserved(intent: GroupIntent, g: nat, batch: nat, first: nat, required: nat) returns (ok: bool)
      requires g !in groups && (intent.context.strategy, intent.context.groupIntent) !in byIntent
      requires forall id :: id in desk.orders ==> id < first
      modifies this`desk, this`wire, this`groups, this`byIntent, this`money
      ensures View() == AdmitGroup(old(View()), queue, cfg, intent, g, batch, first, required)
      ensures ok <==> g in groups
    {
      hide WithLegs, ReleaseMoney, OpenOrders, FreshGroup, LegCommands, Send;
      ghost var s0 := View();
      var key := (intent.context.strategy, intent.context.groupIntent);
      var grp := FreshGroup(intent, first, required);
      FreshGroupFacts(intent, first, required);
      groups := groups[g := grp];
      byIntent := byIntent[key := g];
      StoreLegs(intent, g, first);
      ok := SendCommand(SubmitBatch(batch, g, LegCommands(intent, first)));
      if ok {
        groups := groups[g := grp.(state := PendingVenue)];
        CountOpenOrders(intent.context.strategy, |intent.orders|);
      } else {
        UndoAdmission(intent, g, key, first, grp, s0);
      }
    }

    /** The rollback after a failed push: every table as before, the capital released. */
    method UndoAdmission(intent: GroupIntent, g: nat, key: (nat, nat), first: nat, grp: Group, ghost s0: State)
      requires g !in s0.groups && key !in s0.byIntent && !grp.released && forall id ::
                 id in s0.desk.orders ==> id < first
      requires groups == s0.groups[g := grp] && byIntent == s0.byIntent[key := g]
      requires desk == s0.desk.(orders := WithLegs(s0.desk.orders, intent, g, first, |intent.orders|))
      modifies this`desk, this`groups, this`byIntent, this`money
      ensures desk == s0.desk && groups == s0.groups && byIntent == s0.byIntent
      ensures money == ReleaseMoney(old(money), cfg, grp)
    {
      hide WithLegs, ReleaseMoney, ReleasedGroup;
      LegsErased(s0.desk.orders, intent, g, first);
      EraseLegs(|intent.orders|, first);
      byIntent := byIntent - {key};
      ReleaseGroupCapital(g);
      groups := groups - {g};
      assert byIntent == s0.byIntent && groups == s0.groups;
    }

    // ------------------------------------------------------------ venue answers

    /** find_order_for_rest_response(): the last resort scans the order table. */
    method FindOrderForRest(r: RestResponse) returns (target: Option<nat>)
      ensures Resolves(desk, r, target)
      ensures target.Some? ==> target.value in desk.orders
    {
      if r.client != 0 {
        return if r.client in desk.orders then Some(r.client) else None;
      }
      if r.exchange != 0 {
        return ByExchange(desk, r.exchange);
      }
      if r.request in desk.orders {
        return Some(r.request);
      }
      target := None;
      if r.request != 0 {
        var todo := desk.orders.Keys;
        while todo != {}
          invariant todo <= desk.orders.Keys
          invariant forall id :: id in desk.orders && id !in todo ==> desk.orders[id].pending != r.request
          decreases todo
        {
          var id :| id in todo;
          if desk.orders[id].pending == r.request {
            return Some(id);
          }
          todo := todo - {id};
        }
      }
    }

    method LinkExchange(id: nat, exchange: nat)
      requires id in desk.orders
      modifies this`desk
      ensures desk == Linked(old(desk), id, exchange) && id in desk.orders
    {
      if exchange != 0 {
        desk := desk.(orders := desk.orders[id := desk.orders[id].(exchange := exchange)],
                      byExchange := desk.byExchange[exchange := id]);
      }
    }

    /** handle_venue_event(RestOrderResponse) up to the group update. */
    method ApplyRestResponse(r: RestResponse) returns (target: Option<nat>)
      modifies this`desk, this`groups, this`money
      ensures Resolves(old(desk), r, target) && (target.Some? ==> target.value in old(desk).orders)
      ensures View() == RestOrder(old(View()), cfg, r, target)
    {
      hide AccountTerminal, Answered, Resolves;
      target := FindOrderForRest(r);
      if target.Some? {
        var id := target.value;
        LinkExchange(id, r.exchange);
        desk := WithOrder(desk, id, Answered(desk.orders[id], r.kind, r.result));
        AccountTerminalOrder(id);
      }
    }

    method OnRestResponse(r: RestResponse) returns (target: Option<nat>)
      requires Valid()
      modifies this
      ensures Valid()
      ensures Enabled(old(View()), cfg, RestArrives(r, target))
      ensures View() == Step(old(View()), queue, cfg, RestArrives(r, target))
    {
      hide Inv, RestOrder, UpdateGroup, Resolves;
      ghost var s0 := View();
      target := ApplyRestResponse(r);
      assert Enabled(s0, cfg, RestArrives(r, target));
      InvStep(s0, queue, cfg, RestArrives(r, target));
      RestUnresolved(s0, cfg, r);
      if target.Some? {
        assert IdsBelow(desk) by { RestIds(s0, cfg, r, target); }
        UpdateGroupAfter(target.value);
      }
    }

    /** handle_venue_event(RestOrderBatchResponse). */
    method OnBatchResponse(b: BatchResponse) returns (targets: seq<Option<nat>>)
      requires Valid()
      modifies this
      ensures Valid()
      ensures |targets| == |b.responses| && Enabled(old(View()), cfg, BatchArrives(b, targets))
      ensures View() == Step(old(View()), queue, cfg, BatchArrives(b, targets))
    {
      hide Inv, RestLegs, LegsResolve, UpdateGroup, BeginRepair, CorrelationMissing;
      ghost var s0 := View();
      var missing;
      targets, missing := ApplyBatchLegs(b);
      assert Enabled(s0, cfg, BatchArrives(b, targets));
      InvStep(s0, queue, cfg, BatchArrives(b, targets));
      assert IdsBelow(desk) by { BatchIds(s0, cfg, b, targets); }
      if b.group in groups && groups[b.group].legs != [] {
        var grp := groups[b.group];
        if missing || grp.legs[0].request !in desk.orders {
          ghost var s1 := View();
          groups := groups[b.group := grp.(uncertain := true)];
          BeginStored(s1, queue, cfg, b.group, grp.(uncertain := true), VenueStateUncertain);
          BeginGroupRepair(b.group, VenueStateUncertain);
        } else {
          UpdateGroupAfter(grp.legs[0].request);
        }
      }
    }

    /** The deferred leg loop of a batch answer. */
    method ApplyBatchLegs(b: BatchResponse) returns (targets: seq<Option<nat>>, missing: bool)
      modifies this`desk, this`groups, this`money
      ensures |targets| == |b.responses| && LegsResolve(old(View()), cfg, b, targets, 0)
      ensures View() == RestLegs(old(View()), cfg, b, targets, 0)
      ensures missing == CorrelationMissing(b)
    {
      hide RestOrder, Resolves;
      ghost var s0 := View();
      ghost var states := [s0];
      targets, missing := [], |b.responses| != b.requested;
      for i := 0 to |b.responses|
        invariant |targets| == i && |states| == i + 1 && states[0] == s0 && states[i] == View()
        invariant missing <==> |b.responses| != b.requested || exists j :: 0 <= j < i && b.responses[j].request == 0
        invariant forall j :: 0 <= j < i ==> LegStep(cfg, b, j, targets[j], states[j], states[j + 1])
      {
        var target := None;
        if b.responses[i].request == 0 {
          missing := true;
        } else {
          target := ApplyRestResponse(LegResult(b.responses[i], b.result));
        }
        targets := targets + [target];
        states := states + [View()];
      }
      LegStepsAdd(cfg, b, targets, states, 0);
    }

    // --------------------------------------------------------- private feed

    method OnUserOrderEvent(e: UserOrder)
      requires Valid()
      modifies this
      ensures Valid()
      ensures View() == Step(old(View()), queue, cfg, UserOrderArrives(e))
    {
      hide Inv, AccountTerminal, UpdateGroup;
      ghost var s0 := View();
      InvStep(s0, queue, cfg, UserOrderArrives(e));
      var found := FindRecord(desk, e.client, e.exchange);
      if found.Some? {
        var id := found.value;
        LinkExchange(id, e.exchange);
        desk := WithOrder(desk, id, UserOrderApplied(desk.orders[id], e));
        AccountTerminalOrder(id);
        assert IdsBelow(desk) by {
          InvBooks(s0, cfg);
          UserOrderIds(s0, cfg, e, id, Linked(s0.desk, id, e.exchange),
                       UserOrderApplied(Linked(s0.desk, id, e.exchange).orders[id], e));
        }
        UpdateGroupAfter(id);
      }
    }

    method OnFillEvent(e: Fill) returns (accounted: bool)
      requires Valid()
      modifies this
      ensures Valid()
      ensures View() == Step(old(View()), queue, cfg, FillArrives(e))
      ensures accounted <==> Recognised(old(View()), e) && e.trade.value !in old(trades)
      ensures trades == TradesAfter(old(View()), FillArrives(e))
      ensures !accounted ==> groups == old(groups) && money == old(money)
    {
      hide Inv, AccountTerminal, UpdateGroup, AccountFill, Linked, FilledOrder, Contributes;
      ghost var s0 := View();
      InvStep(s0, queue, cfg, FillArrives(e));
      FillTrades(s0, queue, cfg, e);
      accounted := false;
      var found := FindRecord(desk, e.client, e.exchange);
      if found.Some? {
        var id := found.value;
        LinkExchange(id, e.exchange);
        ghost var d := desk;
        if e.trade.Some? && e.trade.value !in trades {
          accounted := true;
          var o := FilledOrder(desk.orders[id], e);
          desk := WithOrder(desk, id, o);
          trades := trades[e.trade.value := Contributes(groups, o, e)];
          FillOrdersStay(s0, cfg, d, id, e);
          AccountFillOf(id, e);
          AccountTerminalOrder(id);
          UpdateGroupAfter(id);
        }
      }
    }

    // ---------------------------------------------- reconciliation and control

    method OnPositionEvent(v: VenuePosition)
      requires Valid()
      modifies this`money, this`gate
      ensures Valid()
      ensures View() == Step(old(View()), queue, cfg, PositionArrives(v))
    {
      hide Inv, EnsurePortfolio, RecomputeAll, OverwrittenPosition;
      InvStep(View(), queue, cfg, PositionArrives(v));
      if v.market != 0 && cfg.strategies == 1 {
        EnsureShape(money, cfg, 0);
        EnsureStrategyPortfolio(0);
        var was := PositionOf(money, 0, v.market, v.event);
        money := StorePosition(money, 0, money.portfolios[0], was, OverwrittenPosition(was, v));
        RecomputeAllAvailable();
      }
      gate := gate.(reconcileNeeded := cfg.required);
    }

    method OnSnapshotEvent(snap: PortfolioSnapshot, now: nat)
      requires Valid()
      modifies this`money, this`gate
      ensures Valid()
      ensures View() == Step(old(View()), queue, cfg, SnapshotArrives(snap, now))
    {
      hide Inv, RecomputeAll, AdoptPositions, VenueByMarket;
      InvStep(View(), queue, cfg, SnapshotArrives(snap, now));
      if snap.id == 0 || snap.id != gate.activeReconciliation {
        return;
      }
      gate := gate.(activeReconciliation := 0);
      if gate.universe.None? || snap.version != gate.universe.value.version {
        gate := gate.(reconcileNeeded := true, nextDue := 0);
        return;
      }
      if !snap.complete {
        money := money.(reconciled := false);
        gate := gate.(reconcileNeeded := true, nextDue := now + RECONCILIATION_RETRY_NS, trading := false);
        RecomputeAllAvailable();
        return;
      }
      money := money.(balance := snap.balance, reconciled := true);
      if cfg.strategies == 1 {
        var venue := CollectPositions(snap.positions);
        AdoptVenuePositions(venue);
      }
      gate := gate.(reconciledFor := snap.version, nextDue := if cfg.interval == 0 then 0 else now + cfg.interval);
      RecomputeAllAvailable();
    }

    /** The last reported position of each market. */
    method CollectPositions(ps: seq<VenuePosition>) returns (venue: map<nat, VenuePosition>)
      ensures venue == VenueByMarket(ps)
    {
      venue := map[];
      assert ps[..0] == [];
      for i := 0 to |ps|
        invariant venue == VenueByMarket(ps[..i])
      {
        assert ps[..i + 1][..i] == ps[..i] && ps[..i + 1][i] == ps[i];
        if ps[i].market != 0 {
          venue := venue[ps[i].market := ps[i]];
        }
      }
      assert ps[..|ps|] == ps;
    }

    /** The single-strategy policy: rebuild the positions of strategy 0 from the venue. */
    method AdoptVenuePositions(venue: map<nat, VenuePosition>)
      modifies this`money
      ensures money == AdoptPositions(old(money), cfg, venue)
    {
      hide EnsurePortfolio, ReportedPosition, Sum;
      ghost var m0 := money;
      EnsureShape(money, cfg, 0);
      EnsureStrategyPortfolio(0);
      var previous := money.positions;
      var p := money.portfolios[0];
      var inventory, realized, fees := 0, p.realized, p.fees;
      var positions := map key | key in previous && key.0 != 0 :: previous[key];
      var todo := venue.Keys;
      ReportedNone(m0, venue);
      while todo != {}
        invariant money == EnsurePortfolio(m0, cfg, 0) && todo <= venue.Keys
        invariant positions == Reported(m0, venue, venue.Keys - todo)
        invariant inventory == Sum(Shifts(m0, venue - todo), ShiftExposure)
        invariant realized == p.realized + Sum(Shifts(m0, venue - todo), ShiftRealized)
        invariant fees == p.fees + Sum(Shifts(m0, venue - todo), ShiftFees)
        decreases todo
      {
        var x :| x in todo;
        var was := if (0, x) in previous then previous[(0, x)] else Position(0, x, 0, 0, 0, 0, 0, 0, 0);
        var now := ReportedPosition(was, venue[x], x);
        ReportedNext(m0, venue, todo, x);
        positions := positions[(0, x) := now];
        inventory := inventory + now.exposure;
        realized := realized + now.realized - was.realized;
        fees := fees + now.fees - was.fees;
        todo := todo - {x};
      }
      assert venue - todo == venue && venue.Keys - todo == venue.Keys;
      var dropped := previous.Keys;
      DroppedNone(m0, venue);
      while dropped != {}
        invariant money == EnsurePortfolio(m0, cfg, 0) && dropped <= previous.Keys
        invariant positions == ReportedAndDropped(m0, venue, previous.Keys - dropped)
        decreases dropped
      {
        var key :| key in dropped;
        DroppedNext(m0, venue, dropped, key);
        if key.0 == 0 && key !in positions {
          positions := positions[key := DroppedPosition(previous[key], key.1)];
        }
        dropped := dropped - {key};
      }
      assert previous.Keys - dropped == m0.positions.Keys;
      DroppedAll(m0, venue, previous.Keys - dropped);
      money := money.(positions := positions,
                      portfolios :=
                        money.portfolios[0 := p.(inventory := inventory, realized := realized, fees := fees)]);
    }

    method RequestReconciliationIfDue(now: nat) returns (sent: bool)
      requires Valid()
      modifies this`wire, this`gate
      ensures Valid()
      ensures View() == Step(old(View()), queue, cfg, PumpReconciliation(now))
      ensures sent <==> |wire.log| > |old(wire).log|
    {
      hide Inv;
      InvStep(View(), queue, cfg, PumpReconciliation(now));
      sent := false;
      if ReconciliationDue(View(), cfg, now) {
        var id := gate.nextReconciliation;
        gate := gate.(nextReconciliation := id + 1);
        sent := SendCommand(RequestReconciliation(id, gate.universe.value.version));
        if sent {
          gate := gate.(activeReconciliation := id, reconcileNeeded := false);
        }
      }
    }

    method OnAllowTrading()
      requires Valid()
      modifies this`gate
      ensures Valid()
      ensures View() == Step(old(View()), queue, cfg, AllowTrading)
    {
      hide Inv;
      InvStep(View(), queue, cfg, AllowTrading);
      gate := gate.(trading := !gate.incident && gate.universe.Some? && gate.universe.value.version != 0
                    && (cfg.required ==> money.reconciled));
    }

    method OnDisableTrading()
      requires Valid()
      modifies this`gate
      ensures Valid()
      ensures View() == Step(old(View()), queue, cfg, DisableTrading)
    {
      hide Inv;
      InvStep(View(), queue, cfg, DisableTrading);
      gate := gate.(trading := false);
    }

    /** CancelAllOrders; `order` is the order the table was walked in. */
    method OnCancelAllOrders() returns (order: seq<nat>)
      requires Valid()
      modifies this`desk, this`wire, this`gate
      ensures Valid()
      ensures Enumerates(order, old(desk).orders.Keys)
      ensures View() == Step(old(View()), queue, cfg, CancelAllOrders(order))
    {
      hide Inv, CancelEach, EmitCancel;
      ghost var s0 := View();
      gate := gate.(trading := false);
      order := [];
      var todo := desk.orders.Keys;
      CancelNone(desk, wire, queue);
      while todo != {}
        invariant todo <= s0.desk.orders.Keys && Walked(order, todo, s0.desk.orders.Keys)
        invariant gate == s0.gate.(trading := false)
        invariant CancelEach(s0.desk, s0.wire, queue, order, 0).0 == desk
        invariant CancelEach(s0.desk, s0.wire, queue, order, 0).1 == wire
        decreases todo
      {
        var id :| id in todo;
        CancelNext(s0.desk, s0.wire, queue, order, id);
        var _ := EmitCancelCommand(id, 0);
        WalkedNext(order, todo, s0.desk.orders.Keys, id);
        order := order + [id];
        todo := todo - {id};
      }
      WalkedAll(order, todo, s0.desk.orders.Keys);
      assert Enabled(s0, cfg, CancelAllOrders(order));
      InvStep(s0, queue, cfg, CancelAllOrders(order));
    }

    method OnApplyUniverse(u: Option<OrderUniverse>)
      requires Valid()
      modifies this`gate, this`money
      ensures Valid()
      ensures View() == Step(old(View()), queue, cfg, ApplyUniverse(u))
    {
      hide Inv, RecomputeAll;
      InvStep(View(), queue, cfg, ApplyUniverse(u));
      var previous := if gate.universe.None? then 0 else gate.universe.value.version;
      gate := gate.(universe := u);
      if u.None? || u.value.version != previous {
        gate := gate.(trading := false);
        if cfg.required {
          money := money.(reconciled := false);
          gate := gate.(reconcileNeeded := u.Some?, nextDue := 0);
          RecomputeAllAvailable();
        }
      }
    }
  }

  /** The position and totals after a fill. */
  function FilledPositionStored(m: Money, k: nat, o: Order, e: Fill, was: Position): Money
    requires k in m.portfolios
  {
    StorePosition(m, k, m.portfolios[k], was, FilledPosition(was, FillLots(o, e), YesPrice(o, e), e.average))
  }

  /** The money half-way through a refresh, with the portfolios in `todo` not visited yet. */
  ghost function HalfRecomputed(m: Money, cfg: RiskConfig, todo: set<nat>): Money {
    m.(portfolios := map k | k in m.portfolios ::
         if k in todo then m.portfolios[k] else Recomputed(m, cfg, m.portfolios[k]))
  }

  lemma HalfRecomputedNext(m: Money, cfg: RiskConfig, todo: set<nat>, k: nat)
    requires k in todo && todo <= m.portfolios.Keys
    ensures var half := HalfRecomputed(m, cfg, todo);
            && k in half.portfolios && half.portfolios[k] == m.portfolios[k]
            && HalfRecomputed(m, cfg, todo - {k}) ==
            half.(portfolios := half.portfolios[k := Recomputed(half, cfg, half.portfolios[k])])
  {
    hide GlobalReserved, Available;
    var half := HalfRecomputed(m, cfg, todo);
    SameGlobal(m.portfolios, half.portfolios);
    assert Recomputed(half, cfg, half.portfolios[k]) == Recomputed(m, cfg, m.portfolios[k]);
  }

  lemma {:induction false} CancelablesNext(orders: map<nat, Order>, legs: seq<Leg>, i: nat)
    requires i < |legs|
    ensures Cancelables(orders, legs[..i + 1]) ==
            if legs[i].request in orders && IsCancelable(orders[legs[i].request].state)
            then Cancelables(orders, legs[..i]) + [legs[i].request]
            else Cancelables(orders, legs[..i])
  {
    if i > 0 {
      assert legs[..i + 1][1..] == legs[1..][..i] && legs[..i][1..] == legs[1..][..i - 1];
      CancelablesNext(orders, legs[1..], i - 1);
    }
  }

  lemma {:induction false} ResidualCountNext(legs: seq<Leg>, i: nat)
    requires i < |legs|
    ensures ResidualCount(legs[..i + 1]) == ResidualCount(legs[..i]) + if legs[i].residual != 0 then 1 else 0
  {
    if i > 0 {
      assert legs[..i + 1][1..] == legs[1..][..i] && legs[..i][1..] == legs[1..][..i - 1];
      ResidualCountNext(legs[1..], i - 1);
    }
  }

  /** A pass written back replaces whatever was stored for its group. */
  lemma ApplyLooked(s: State, cfg: RiskConfig, g: nat, r: Repair)
    ensures ApplyRepair(s.(wire := Looked(s.wire)), cfg, g, r) == ApplyRepair(s, cfg, g, r)
  {
    hide AnyBroken, OpenOrders, ReleaseMoney, ReleasedGroup;
  }

  lemma ApplyTwice(s: State, cfg: RiskConfig, g: nat, grp: Group, r: Repair)
    ensures ApplyRepair(s.(groups := s.groups[g := grp]), cfg, g, r) == ApplyRepair(s, cfg, g, r)
  {
    hide AnyBroken, OpenOrders, ReleaseMoney, ReleasedGroup;
    assert s.groups[g := grp][g := r.group] == s.groups[g := r.group];
  }

  lemma SameExposureAfterScan(orders: map<nat, Order>, legs: seq<Leg>)
    ensures HasResidual(RetireRepairs(orders, legs)) == HasResidual(legs)
  {
    SameExposure(legs, RetireRepairs(orders, legs));
  }

  lemma SameLegsFilled(orders: map<nat, Order>, legs: seq<Leg>)
    ensures SomeLeg(orders, RetireRepairs(orders, legs), HasFill) == SomeLeg(orders, legs, HasFill)
  {
    var kept := RetireRepairs(orders, legs);
    forall i | 0 <= i < |legs| ensures kept[i].request == legs[i].request {}
    if SomeLeg(orders, legs, HasFill) {
      var i :| 0 <= i < |legs| && legs[i].request in orders && HasFill(orders[legs[i].request]);
      assert kept[i].request in orders && HasFill(orders[kept[i].request]);
    }
  }

  lemma ApplyHold(s: State, cfg: RiskConfig, g: nat, grp: Group)
    ensures ApplyRepair(s, cfg, g, Hold(s.desk, s.wire, grp)) == s.(groups := s.groups[g := grp])
  {
  }

  /** The part of a table already walked, each key once. */
  ghost predicate Walked(order: seq<nat>, todo: set<nat>, keys: set<nat>) {
    && todo <= keys && (forall i :: 0 <= i < |order| ==> order[i] in keys && order[i] !in todo)
    && (forall k :: k in keys && k !in todo ==> k in order)
    && (forall i, j :: 0 <= i < j < |order| ==> order[i] != order[j])
  }

  lemma WalkedNext(order: seq<nat>, todo: set<nat>, keys: set<nat>, g: nat)
    requires Walked(order, todo, keys) && g in todo
    ensures Walked(order + [g], todo - {g}, keys)
  {
    var next := order + [g];
    assert next[|order|] == g;
    forall k | k in keys && k !in todo - {g} ensures k in next {
      if k != g { assert k in order; }
    }
  }

  lemma WalkedAll(order: seq<nat>, todo: set<nat>, keys: set<nat>)
    requires Walked(order, todo, keys) && todo == {}
    ensures Enumerates(order, keys)
  {
  }

  lemma {:induction false} ServiceNext(s: State, q: Queue, cfg: RiskConfig, order: seq<nat>, g: nat)
    ensures var s1 := ServiceEach(s, q, cfg, order);
            ServiceEach(s, q, cfg, order + [g]) ==
            if g in s1.groups && NeedsService(s1.groups[g].state) then ContinueRepair(s1, q, cfg, g, s1.groups[g])
            else s1
    decreases |order|
  {
    hide ContinueRepair;
    if order == [] {
      assert [g][1..] == [] && order + [g] == [g];
    } else {
      assert (order + [g])[0] == order[0] && (order + [g])[1..] == order[1..] + [g];
      if order[0] in s.groups && NeedsService(s.groups[order[0]].state) {
        ServiceNext(ContinueRepair(s, q, cfg, order[0], s.groups[order[0]]), q, cfg, order[1..], g);
      } else {
        ServiceNext(s, q, cfg, order[1..], g);
      }
    }
  }

  lemma InvContinue(s: State, q: Queue, cfg: RiskConfig, g: nat)
    requires Inv(s, cfg) && g in s.groups && NeedsService(s.groups[g].state)
    ensures Inv(ContinueRepair(s, q, cfg, g, s.groups[g]), cfg)
  {
    hide Books, GateInv, ContinueRepair;
    BooksHaveIds(s, cfg);
    BooksContinue(s, q, cfg, g);
    GateContinue(s, q, cfg, g);
    ContinueKeys(s, q, cfg, g, s.groups[g]);
    ContinueHistory(s, q, cfg, g, s.groups[g]);
  }

  lemma ContinueKeys(s: State, q: Queue, cfg: RiskConfig, g: nat, grp: Group)
    requires g in s.groups
    ensures ContinueRepair(s, q, cfg, g, grp).groups.Keys == s.groups.Keys
  {
    hide RepairPass, ApplyRepair;
    ApplyShape(s, cfg, g, RepairPass(s.desk, s.wire, q, cfg, g, grp));
  }

  lemma BeginStored(s: State, q: Queue, cfg: RiskConfig, g: nat, grp: Group, reason: FailureReason)
    ensures BeginRepair(s, q, cfg, g, grp, reason) ==
            BeginRepair(s.(groups := s.groups[g := grp]), q, cfg, g, grp, reason)
  {
    hide ContinueRepair, HasResidual;
    var uncertain := grp.uncertain || reason.VenueStateUncertain?;
    var next :=
      grp.(uncertain := uncertain, failure := reason, exposed := HasResidual(grp.legs),
           state := UncertainOr(uncertain, RepairRequired));
    ContinueStored(s.(gate := Latch(s.gate)), q, cfg, g, next);
    ContinueStored(s.(gate := Latch(s.gate), groups := s.groups[g := grp]), q, cfg, g, next);
    assert s.groups[g := grp][g := next] == s.groups[g := next];
  }

  lemma JudgeIgnoresIds(s: State, s': State, cfg: RiskConfig, o: NewOrder)
    requires s'.gate == s.gate && s'.money == s.money
    ensures JudgeNewOrder(s', cfg, o) == JudgeNewOrder(s, cfg, o)
  {
  }

  lemma JudgedOrderHasNotional(s: State, cfg: RiskConfig, o: NewOrder)
    requires JudgeNewOrder(s, cfg, o).None?
    ensures FullNotional(o.quantity).Some?
  {
  }

  lemma RecomputedKey(m: Money, cfg: RiskConfig, k: nat)
    requires k in m.portfolios
    ensures k in RecomputeAll(m, cfg).portfolios
  {
    hide Recomputed;
  }

  lemma ScanNone(orders: map<nat, Order>)
    ensures ScanOf(orders, []) == LegScan(true, true, true, false, false, false, false)
  {
  }

  /** One more leg in the scan. */
  lemma ScanNext(orders: map<nat, Order>, legs: seq<Leg>, i: nat)
    requires i < |legs|
    ensures var scan := ScanOf(orders, legs[..i]);
            ScanOf(orders, legs[..i + 1]) ==
            if legs[i].request !in orders
            then scan.(doubt := true, allFilled := false, allEnded := false, accounted := false)
            else
              var leg := orders[legs[i].request];
              LegScan(scan.allFilled && leg.state.Filled?, scan.allEnded && IsTerminal(leg.state), scan.accounted
                      && leg.reserved == 0,
                      scan.anyFill || leg.filled > 0, scan.anyPartial || leg.state.PartiallyFilled?,
                      scan.anyFailed || (IsTerminal(leg.state) && !leg.state.Filled?), scan.doubt
                          || leg.state.Uncertain?)
  {
    hide AllLegs, SomeLeg, LegInDoubt;
    AllNext(orders, legs, i, IsFilled);
    AllNext(orders, legs, i, HasEnded);
    AllNext(orders, legs, i, HoldsNothing);
    SomeNext(orders, legs, i, HasFill);
    SomeNext(orders, legs, i, IsPartial);
    SomeNext(orders, legs, i, HasFailed);
    DoubtNext(orders, legs, i);
  }

  lemma AllNext(orders: map<nat, Order>, legs: seq<Leg>, i: nat, p: Order -> bool)
    requires i < |legs|
    ensures AllLegs(orders, legs[..i + 1], p) <==>
              AllLegs(orders, legs[..i], p) && legs[i].request in orders && p(orders[legs[i].request])
  {
    assert legs[..i + 1] == legs[..i] + [legs[i]];
    assert forall j :: 0 <= j < i ==> legs[..i + 1][j] == legs[..i][j];
    assert legs[..i + 1][i] == legs[i];
  }

  lemma SomeNext(orders: map<nat, Order>, legs: seq<Leg>, i: nat, p: Order -> bool)
    requires i < |legs|
    ensures SomeLeg(orders, legs[..i + 1], p) <==>
              SomeLeg(orders, legs[..i], p) || (legs[i].request in orders && p(orders[legs[i].request]))
  {
    assert forall j :: 0 <= j < i ==> legs[..i + 1][j] == legs[..i][j];
    assert legs[..i + 1][i] == legs[i];
  }

  lemma DoubtNext(orders: map<nat, Order>, legs: seq<Leg>, i: nat)
    requires i < |legs|
    ensures LegInDoubt(orders, legs[..i + 1]) <==>
            LegInDoubt(orders, legs[..i]) || legs[i].request !in orders || orders[legs[i].request].state.Uncertain?
  {
    assert forall j :: 0 <= j < i ==> legs[..i + 1][j] == legs[..i][j];
    assert legs[..i + 1][i] == legs[i];
  }

  /** Erasing the legs of a group restores the order table it was added to. */
  lemma LegsErased(orders: map<nat, Order>, intent: GroupIntent, g: nat, first: nat)
    requires forall id :: id in orders ==> id < first
    ensures var n := |intent.orders|;
            var after := WithLegs(orders, intent, g, first, n);
            (map id | id in after && !(first <= id < first + n) :: after[id]) == orders
  {
    hide WithLegs;
    WithLegsShape(orders, intent, g, first, |intent.orders|);
  }

  /** The ids an admission uses are new, and so is its intent. */
  lemma FreshIds(s: State, cfg: RiskConfig, intent: GroupIntent, now: nat, slots: Option<int>)
    requires Inv(s, cfg)
    ensures s.nextGroup !in s.groups
    ensures JudgeGroup(s, cfg, intent, now, slots).0.None? ==>
              (intent.context.strategy, intent.context.groupIntent) !in s.byIntent
    ensures forall id :: id in s.desk.orders ==> id < s.desk.nextRequest + 1
  {
    hide Books, GateInv, JudgeLegs, TimestampChain;
    BooksHaveIds(s, cfg);
  }

  lemma RestIds(s: State, cfg: RiskConfig, r: RestResponse, target: Option<nat>)
    requires Inv(s, cfg)
    ensures IdsBelow(RestOrder(s, cfg, r, target).desk)
  {
    hide Books, GateInv, RestOrder;
    BooksRestOrder(s, cfg, r, target);
    BooksHaveIds(RestOrder(s, cfg, r, target), cfg);
  }

  lemma RestUnresolved(s: State, cfg: RiskConfig, r: RestResponse)
    ensures RestOrder(s, cfg, r, None) == s
  {
  }

  lemma BatchIds(s: State, cfg: RiskConfig, b: BatchResponse, targets: seq<Option<nat>>)
    requires Inv(s, cfg) && |targets| == |b.responses|
    ensures IdsBelow(RestLegs(s, cfg, b, targets, 0).desk)
  {
    hide Books, GateInv, RestLegs;
    BooksRestLegs(s, cfg, b, targets, 0);
    BooksHaveIds(RestLegs(s, cfg, b, targets, 0), cfg);
  }

  lemma InvBooks(s: State, cfg: RiskConfig)
    requires Inv(s, cfg)
    ensures Books(s, cfg)
  {
  }

  /** One leg of a batch answer, from one state to the next. */
  ghost predicate LegStep(cfg: RiskConfig, b: BatchResponse, j: nat, target: Option<nat>, s: State, s': State)
    requires j < |b.responses|
  {
    if b.responses[j].request == 0 then s' == s
    else
      var leg := LegResult(b.responses[j], b.result);
      Resolves(s.desk, leg, target) && s' == RestOrder(s, cfg, leg, target)
  }

  lemma {:induction false} LegStepsAdd(cfg: RiskConfig, b: BatchResponse, targets: seq<Option<nat>>,
                                       states: seq<State>, i: nat)
    requires |targets| == |b.responses| && |states| == |targets| + 1 && i <= |targets|
    requires forall j :: 0 <= j < |targets| ==> LegStep(cfg, b, j, targets[j], states[j], states[j + 1])
    ensures LegsResolve(states[i], cfg, b, targets, i)
    ensures RestLegs(states[i], cfg, b, targets, i) == states[|targets|]
    decreases |targets| - i
  {
    hide RestOrder, Resolves;
    if i < |targets| {
      assert LegStep(cfg, b, i, targets[i], states[i], states[i + 1]);
      LegStepsAdd(cfg, b, targets, states, i + 1);
    }
  }

  /** What the fill handler needs of its intermediate states. */
  lemma FillOrdersStay(s: State, cfg: RiskConfig, d: Desk, id: nat, e: Fill)
    requires Inv(s, cfg) && id in s.desk.orders && d == Linked(s.desk, id, e.exchange) && id in d.orders
    requires e.trade.Some? && e.trade.value !in s.trades
    ensures var s1 := AccountFill(RecordTrade(s, d, id, e), cfg, id, e);
            id in s1.desk.orders && IdsBelow(AccountTerminal(s1, cfg, id).desk)
  {
    hide Books, GateInv, AccountTerminal, Linked;
    LinkedStays(s, cfg, id, e.exchange);
    BooksFill(s, cfg, d, id, e);
    FillKeepsOrder(RecordTrade(s, d, id, e), cfg, id, e);
    var s1 := AccountFill(RecordTrade(s, d, id, e), cfg, id, e);
    BooksTerminal(s1, cfg, id);
    BooksHaveIds(AccountTerminal(s1, cfg, id), cfg);
  }

  lemma FillKeepsOrder(s: State, cfg: RiskConfig, id: nat, e: Fill)
    requires id in s.desk.orders
    ensures id in AccountFill(s, cfg, id, e).desk.orders
  {
    hide WellFormedFill, FilledGroups, ReduceGroup, FilledMoney, EnsurePortfolio, FillStops;
  }

  // ------------------------------------------------------- adopting positions

  /** Other strategies' positions and the markets in `done` as the venue reports them. */
  ghost function Reported(m: Money, venue: map<nat, VenuePosition>, done: set<nat>): map<(nat, nat), Position> {
    map key | key in ReportedKeys(m, done) :: SnapshotPosition(m, venue, key)
  }

  ghost function ReportedKeys(m: Money, done: set<nat>): set<(nat, nat)> {
    (set key | key in m.positions && key.0 != 0) + (set x | x in done :: (0, x))
  }

  lemma ReportedNone(m: Money, venue: map<nat, VenuePosition>)
    ensures (map key | key in m.positions && key.0 != 0 :: m.positions[key]) ==
            Reported(m, venue, venue.Keys - venue.Keys)
    ensures Sum(Shifts(m, venue - venue.Keys), ShiftExposure) == 0
    ensures Sum(Shifts(m, venue - venue.Keys), ShiftRealized) == 0
    ensures Sum(Shifts(m, venue - venue.Keys), ShiftFees) == 0
  {
    hide ReportedPosition;
    NoShift(m, venue - venue.Keys, ShiftExposure);
    NoShift(m, venue - venue.Keys, ShiftRealized);
    NoShift(m, venue - venue.Keys, ShiftFees);
  }

  lemma ReportedNext(m: Money, venue: map<nat, VenuePosition>, todo: set<nat>, x: nat)
    requires x in todo && todo <= venue.Keys
    ensures var was := PositionOf(m, 0, x, 0);
            var now := ReportedPosition(was, venue[x], x);
            && Reported(m, venue, venue.Keys - (todo - {x})) == Reported(m, venue, venue.Keys - todo)[(0, x) := now]
            && Sum(Shifts(m, venue - (todo - {x})), ShiftExposure) == Sum(Shifts(m, venue - todo), ShiftExposure)
            + now.exposure
            && Sum(Shifts(m, venue - (todo - {x})), ShiftRealized) == Sum(Shifts(m, venue - todo), ShiftRealized)
            + now.realized - was.realized
            && Sum(Shifts(m, venue - (todo - {x})), ShiftFees) == Sum(Shifts(m, venue - todo), ShiftFees)
            + now.fees - was.fees
  {
    hide ReportedPosition, Sum;
    var more := venue - (todo - {x});
    assert more - {x} == venue - todo && more[x] == venue[x];
    OneMoreShift(m, more, x);
    ReportedGrows(m, venue, venue.Keys - todo, x);
    assert (venue.Keys - todo) + {x} == venue.Keys - (todo - {x});
  }

  lemma ReportedGrows(m: Money, venue: map<nat, VenuePosition>, done: set<nat>, x: nat)
    requires x in venue
    ensures Reported(m, venue, done + {x}) ==
            Reported(m, venue, done)[(0, x) := ReportedPosition(PositionOf(m, 0, x, 0), venue[x], x)]
  {
    hide ReportedPosition;
    assert ReportedKeys(m, done + {x}) == ReportedKeys(m, done) + {(0, x)};
  }

  /** Reported markets, and the dropped ones among the keys already `seen`. */
  ghost function ReportedAndDropped(m: Money, venue: map<nat, VenuePosition>, seen: set<(nat, nat)>)
    : map<(nat, nat), Position>
  {
    map key | key in ReportedKeys(m, venue.Keys) + (seen * m.positions.Keys) :: SnapshotPosition(m, venue, key)
  }

  lemma DroppedNone(m: Money, venue: map<nat, VenuePosition>)
    ensures Reported(m, venue, venue.Keys) == ReportedAndDropped(m, venue, m.positions.Keys - m.positions.Keys)
  {
    assert ReportedKeys(m, venue.Keys) + ((m.positions.Keys - m.positions.Keys) * m.positions.Keys) ==
           ReportedKeys(m, venue.Keys);
  }

  lemma DroppedNext(m: Money, venue: map<nat, VenuePosition>, dropped: set<(nat, nat)>, key: (nat, nat))
    requires key in dropped && dropped <= m.positions.Keys
    ensures var before := ReportedAndDropped(m, venue, m.positions.Keys - dropped);
            ReportedAndDropped(m, venue, m.positions.Keys - (dropped - {key})) ==
            if key.0 == 0 && key !in before then before[key := DroppedPosition(m.positions[key], key.1)] else before
  {
    hide ReportedPosition, DroppedPosition;
    var keys := ReportedKeys(m, venue.Keys);
    var all := m.positions.Keys;
    assert keys + ((all - (dropped - {key})) * all) == keys + ((all - dropped) * all) + {key};
    if key.0 == 0 && key.1 in venue { assert key == (0, key.1); }
  }

  lemma DroppedAll(m: Money, venue: map<nat, VenuePosition>, seen: set<(nat, nat)>)
    requires seen == m.positions.Keys
    ensures ReportedAndDropped(m, venue, seen) == SnapshotPositions(m, venue)
  {
    assert ReportedKeys(m, venue.Keys) + (seen * m.positions.Keys) == SnapshotKeys(m, venue);
  }

  // ------------------------------------------------------------ cancel them all

  lemma CancelNone(d: Desk, w: Wire, q: Queue)
    ensures CancelEach(d, w, q, [], 0) == (d, w, 0)
  {
  }

  lemma {:induction false} CancelNext(d: Desk, w: Wire, q: Queue, ids: seq<nat>, id: nat)
    ensures var (d1, w1, n) := CancelEach(d, w, q, ids, 0);
            var (d2, w2, ok) := EmitCancel(d1, w1, q, id, 0);
            CancelEach(d, w, q, ids + [id], 0) == (d2, w2, if ok then n + 1 else n)
    decreases |ids|
  {
    hide EmitCancel;
    if ids == [] {
      assert ids + [id] == [id] && [id][1..] == [];
    } else {
      assert (ids + [id])[0] == ids[0] && (ids + [id])[1..] == ids[1..] + [id];
      var (d1, w1, _) := EmitCancel(d, w, q, ids[0], 0);
      CancelNext(d1, w1, q, ids[1..], id);
    }
  }
}
