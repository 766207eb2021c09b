/** What one pass of the repair machine may do: which orders it touches, what it puts on the wire
    and how it moves its group. The whole-run bounds on repair are in module OmsRuns. */
module OmsRepair {
  import opened Wrappers
  import opened OmsTypes
  import opened Oms

  /** The fields of an order that the accounting depends on. */
  predicate SameRole(o: Order, o': Order) {
    && o'.context == o.context && o'.group == o.group && o'.leg == o.leg && o'.repair == o.repair
    && o'.reserved == o.reserved
  }

  /** Orders keep their role; new ones are capital-free repair orders of group `g`. */
  predicate DeskGrows(d: Desk, d': Desk, g: nat) {
    && d.nextRequest <= d'.nextRequest && d'.byExchange == d.byExchange
    && (forall id :: id in d.orders ==> id in d'.orders && SameRole(d.orders[id], d'.orders[id]))
    && (forall id :: id in d'.orders && id !in d.orders ==>
          d.nextRequest <= id < d'.nextRequest && d'.orders[id].repair && d'.orders[id].group == g
              && d'.orders[id].reserved == 0)
  }

  /** Every order id has been handed out. */
  predicate IdsBelow(d: Desk) { forall id :: id in d.orders ==> id < d.nextRequest }

  /** The wire only grew, by commands satisfying `p`. */
  ghost predicate Emits(w: Wire, w': Wire, p: Command -> bool) {
    && |w.log| <= |w'.log| && w'.log[..|w.log|] == w.log
    && forall i :: |w.log| <= i < |w'.log| ==> p(w'.log[i])
  }

  lemma EmitsTrans(w: Wire, w1: Wire, w2: Wire, p: Command -> bool)
    requires Emits(w, w1, p) && Emits(w1, w2, p)
    ensures Emits(w, w2, p)
  {
    assert w2.log[..|w.log|] == w2.log[..|w1.log|][..|w.log|];
    forall i | |w.log| <= i < |w2.log| ensures p(w2.log[i]) {
      if i < |w1.log| { assert w2.log[i] == w2.log[..|w1.log|][i]; }
    }
  }

  function IsCancelOf(g: nat): Command -> bool { (c: Command) => c.Cancel? && c.repairOf == g }

  lemma SendEmits(w: Wire, q: Queue, cmd: Command, p: Command -> bool)
    requires p(cmd)
    ensures Emits(w, Send(w, q, cmd).0, p)
    ensures |Send(w, q, cmd).0.log| == |w.log| + if Send(w, q, cmd).1 then 1 else 0
  {
  }

  lemma EmitCancelFacts(d: Desk, w: Wire, q: Queue, id: nat, g: nat)
    requires IdsBelow(d)
    ensures var (d', w', ok) := EmitCancel(d, w, q, id, g);
            && DeskGrows(d, d', g) && d'.orders.Keys == d.orders.Keys && IdsBelow(d')
            && Emits(w, w', IsCancelOf(g)) && |w'.log| == |w.log| + if ok then 1 else 0
  {
    SendEmits(w, q, Cancel(d.nextRequest, id, g), IsCancelOf(g));
  }

  lemma DeskGrowsTrans(d: Desk, d1: Desk, d2: Desk, g: nat)
    requires DeskGrows(d, d1, g) && DeskGrows(d1, d2, g)
    ensures DeskGrows(d, d2, g)
  {
  }

  /** Cancel commands keep every order's role, and each one sent is on the wire. */
  lemma {:induction false} CancelEachFacts(d: Desk, w: Wire, q: Queue, ids: seq<nat>, g: nat)
    requires IdsBelow(d)
    ensures var (d', w', n) := CancelEach(d, w, q, ids, g);
            && DeskGrows(d, d', g) && d'.orders.Keys == d.orders.Keys && IdsBelow(d')
            && Emits(w, w', IsCancelOf(g)) && |w'.log| == |w.log| + n && n <= |ids|
    decreases |ids|
  {
    if ids != [] {
      var (d1, w1, ok) := EmitCancel(d, w, q, ids[0], g);
      EmitCancelFacts(d, w, q, ids[0], g);
      CancelEachFacts(d1, w1, q, ids[1..], g);
      var (d2, w2, n) := CancelEach(d1, w1, q, ids[1..], g);
      hide DeskGrows, Emits, EmitCancel, IdsBelow;
      DeskGrowsTrans(d, d1, d2, g);
      EmitsTrans(w, w1, w2, IsCancelOf(g));
    }
  }

  /** The legs keep their orders and residuals. */
  predicate SameLegs(legs: seq<Leg>, legs': seq<Leg>) {
    |legs'| == |legs| && forall i :: 0 <= i < |legs| ==> legs'[i] == legs[i].(repair := legs'[i].repair)
  }

  /** Commands that undo the residual of a leg of `legs` exactly. */
  predicate Undoes(c: Command, g: nat, legs: seq<Leg>) {
    && c.Submit? && c.reduceOnly && c.repairOf == g && c.order.context.leg < |legs|
    && SignedYesLots(c.order.outcome, c.order.action, c.order.quantity) == Some(-legs[c.order.context.leg].residual)
  }

  function UndoesLegs(g: nat, legs: seq<Leg>): Command -> bool { (c: Command) => Undoes(c, g, legs) }

  lemma RepairIntentUndoes(original: Order, leg: nat, residual: int)
    requires residual != 0 && !original.outcome.UnknownOutcome?
    ensures var o := RepairIntent(original, leg, residual);
            o.context.leg == leg && SignedYesLots(o.outcome, o.action, o.quantity) == Some(-residual)
  {
  }

  /** Every repair order put on the wire is signed exactly as the negation of its leg's residual. */
  lemma {:induction false} SubmitEachFacts(d: Desk, w: Wire, q: Queue, g: nat, legs: seq<Leg>, i: nat, sent: nat)
    requires IdsBelow(d)
    ensures var r := SubmitEach(d, w, q, g, legs, i, sent);
            && DeskGrows(d, r.desk, g) && IdsBelow(r.desk) && SameLegs(legs, r.legs)
            && Emits(w, r.wire, UndoesLegs(g, legs))
            && |r.wire.log| == |w.log| + r.sent - sent && sent <= r.sent
            && (i <= |legs| ==> r.sent - sent <= |legs| - i)
    decreases |legs| - i
  {
    if i < |legs| {
      if legs[i].residual == 0 {
        SubmitEachFacts(d, w, q, g, legs, i + 1, sent);
      } else if !Unrepairable(d, legs[i]) {
        SubmitOneFacts(d, w, q, g, legs, i, sent);
      }
    }
  }

  lemma OneRepair(d: Desk, g: nat, legs: seq<Leg>, i: nat)
    requires IdsBelow(d) && i < |legs| && legs[i].residual != 0 && !Unrepairable(d, legs[i])
    ensures var id := d.nextRequest;
            var original := d.orders[legs[i].request];
            var d1 := WithOrder(d.(nextRequest := id + 1), id, RepairOrder(original, id, g, i, legs[i].residual));
            && DeskGrows(d, d1, g) && IdsBelow(d1) && DeskGrows(d, d.(nextRequest := id + 1), g)
            && IdsBelow(d.(nextRequest := id + 1))
            && Undoes(Submit(id, RepairIntent(original, i, legs[i].residual), true, g), g, legs)
  {
    RepairIntentUndoes(d.orders[legs[i].request], i, legs[i].residual);
  }

  lemma {:induction false} SubmitOneFacts(d: Desk, w: Wire, q: Queue, g: nat, legs: seq<Leg>, i: nat, sent: nat)
    requires IdsBelow(d) && i < |legs| && legs[i].residual != 0 && !Unrepairable(d, legs[i])
    ensures var r := SubmitEach(d, w, q, g, legs, i, sent);
            && DeskGrows(d, r.desk, g) && IdsBelow(r.desk) && SameLegs(legs, r.legs)
            && Emits(w, r.wire, UndoesLegs(g, legs))
            && |r.wire.log| == |w.log| + r.sent - sent && sent <= r.sent && r.sent - sent <= |legs| - i
    decreases |legs| - i, 0
  {
    hide IdsBelow, DeskGrows, Emits, Undoes, RepairIntent, RepairOrder, WithOrder, Send;
    var original := d.orders[legs[i].request];
    var id := d.nextRequest;
    var cmd := Submit(id, RepairIntent(original, i, legs[i].residual), true, g);
    OneRepair(d, g, legs, i);
    SendEmits(w, q, cmd, UndoesLegs(g, legs));
    var (w1, ok) := Send(w, q, cmd);
    if ok {
      var d1 := WithOrder(d.(nextRequest := id + 1), id, RepairOrder(original, id, g, i, legs[i].residual));
      var legs1 := legs[i := legs[i].(repair := id)];
      SubmitEachFacts(d1, w1, q, g, legs1, i + 1, sent + 1);
      var r := SubmitEach(d1, w1, q, g, legs1, i + 1, sent + 1);
      SameUndoing(g, legs, legs1, w1, r.wire);
      SubmitCombine(d, d1, r.desk, w, w1, r.wire, g, legs);
      assert r == SubmitEach(d, w, q, g, legs, i, sent);
    }
  }

  lemma SubmitCombine(d: Desk, d1: Desk, d2: Desk, w: Wire, w1: Wire, w2: Wire, g: nat, legs: seq<Leg>)
    requires DeskGrows(d, d1, g) && DeskGrows(d1, d2, g)
    requires Emits(w, w1, UndoesLegs(g, legs)) && Emits(w1, w2, UndoesLegs(g, legs))
    ensures DeskGrows(d, d2, g) && Emits(w, w2, UndoesLegs(g, legs))
  {
    hide DeskGrows, Emits;
    DeskGrowsTrans(d, d1, d2, g);
    EmitsTrans(w, w1, w2, UndoesLegs(g, legs));
  }

  lemma SameUndoing(g: nat, legs: seq<Leg>, legs1: seq<Leg>, w: Wire, w': Wire)
    requires SameLegs(legs, legs1) && Emits(w, w', UndoesLegs(g, legs1))
    ensures Emits(w, w', UndoesLegs(g, legs))
  {
    forall i | |w.log| <= i < |w'.log| ensures UndoesLegs(g, legs)(w'.log[i]) {
      assert UndoesLegs(g, legs1)(w'.log[i]);
    }
  }

  // --------------------------------------------------------- one pass, whole

  /** A pass keeps what the ledger knows of a group, and never clears its doubt. */
  predicate GroupKept(grp: Group, grp': Group) {
    && grp'.context == grp.context && SameLegs(grp.legs, grp'.legs) && grp'.reserved == grp.reserved
    && grp'.released == grp.released && grp'.overflowed == grp.overflowed && (grp.uncertain ==> grp'.uncertain)
  }

  /** The counters of a group stay within the configured number of repair attempts. */
  predicate RoundsBounded(cfg: RiskConfig, grp: Group) {
    && grp.cancelRounds <= cfg.maxRepairs && grp.submitRounds <= cfg.maxRepairs
    && (grp.submitRounds == grp.repairRounds || (grp.submitRounds == grp.repairRounds + 1 && grp.uncertain))
  }

  /** A pass sends nothing; or one round of cancels, counted; or, for a group not in doubt, one
      round of exact repair orders, counted. No round is longer than the group. */
  ghost predicate OneRound(w: Wire, w': Wire, g: nat, grp: Group, grp': Group) {
    && |w'.log| - |w.log| <= |grp.legs|
    && if |w'.log| == |w.log| then
         w'.log == w.log && grp'.cancelRounds == grp.cancelRounds && grp'.submitRounds == grp.submitRounds
       else if grp'.cancelRounds == grp.cancelRounds + 1 then
         grp'.submitRounds == grp.submitRounds && Emits(w, w', IsCancelOf(g))
       else
         grp'.cancelRounds == grp.cancelRounds && grp'.submitRounds == grp.submitRounds + 1 && !grp.uncertain &&
         Emits(w, w', UndoesLegs(g, grp.legs))
  }

  ghost predicate PassFacts(d: Desk, w: Wire, cfg: RiskConfig, g: nat, grp: Group, r: Repair) {
    && DeskGrows(d, r.desk, g) && IdsBelow(r.desk)
    && GroupKept(grp, r.group)
    && OneRound(w, r.wire, g, grp, r.group)
    && (RoundsBounded(cfg, grp) ==> RoundsBounded(cfg, r.group))
    && (r.done ==>
          (r.group.state.Flattened? || r.group.state.Aborted?) && !HasResidual(r.group.legs) && !r.group.uncertain
              && r.placed == 0)
    && (!r.done && Broken(grp.state) ==> Broken(r.group.state))
  }

  lemma CancelRoundFacts(d: Desk, w: Wire, q: Queue, cfg: RiskConfig, g: nat, grp: Group, ids: seq<nat>)
    requires IdsBelow(d) && |ids| <= |grp.legs|
    ensures PassFacts(d, w, cfg, g, grp, CancelRound(d, w, q, cfg, g, grp, ids))
  {
    hide Emits, CancelEach;
    CancelEachFacts(d, Looked(w), q, ids, g);
    EmitsLooked(w, CancelEach(d, Looked(w), q, ids, g).1, IsCancelOf(g));
    NothingSent(w, CancelEach(d, Looked(w), q, ids, g).1, g);
  }

  lemma EmitsLooked(w: Wire, w': Wire, p: Command -> bool)
    ensures Emits(Looked(w), w', p) ==> Emits(w, w', p)
  {
  }

  /** A look at the room sends nothing. */
  lemma PassLooked(d: Desk, w: Wire, cfg: RiskConfig, g: nat, grp: Group, r: Repair)
    requires PassFacts(d, Looked(w), cfg, g, grp, r)
    ensures PassFacts(d, w, cfg, g, grp, r)
  {
    hide DeskGrows, IdsBelow, GroupKept, RoundsBounded, HasResidual, Emits;
    EmitsLooked(w, r.wire, IsCancelOf(g));
    EmitsLooked(w, r.wire, UndoesLegs(g, grp.legs));
  }

  lemma NothingSent(w: Wire, w': Wire, g: nat)
    ensures Emits(w, w', IsCancelOf(g)) && |w'.log| == |w.log| ==> w'.log == w.log
  {
    if Emits(w, w', IsCancelOf(g)) && |w'.log| == |w.log| {
      assert w'.log[..|w.log|] == w'.log;
    }
  }

  lemma SubmitRoundFacts(d: Desk, w: Wire, q: Queue, cfg: RiskConfig, g: nat, grp: Group)
    requires IdsBelow(d) && !grp.uncertain && grp.repairRounds < cfg.maxRepairs
    ensures PassFacts(d, w, cfg, g, grp, SubmitRound(d, w, q, g, grp))
  {
    hide Emits, SubmitEach, HasResidual;
    SubmitEachFacts(d, w, q, g, grp.legs, 0, 0);
    NoneSubmitted(w, SubmitEach(d, w, q, g, grp.legs, 0, 0).wire, g, grp.legs);
  }

  lemma NoneSubmitted(w: Wire, w': Wire, g: nat, legs: seq<Leg>)
    ensures Emits(w, w', UndoesLegs(g, legs)) && |w'.log| == |w.log| ==> w'.log == w.log
  {
    if Emits(w, w', UndoesLegs(g, legs)) && |w'.log| == |w.log| {
      assert w'.log[..|w.log|] == w'.log;
    }
  }

  /** Only the repair ids of the legs changed, so the residuals and the exposure are the same. */
  lemma SameExposure(legs: seq<Leg>, legs': seq<Leg>)
    requires SameLegs(legs, legs')
    ensures HasResidual(legs) == HasResidual(legs')
  {
    forall i | 0 <= i < |legs| ensures legs'[i].residual == legs[i].residual {}
    if HasResidual(legs) {
      var i :| 0 <= i < |legs| && legs[i].residual != 0;
      assert legs'[i].residual != 0;
    }
  }

  lemma UnwindFacts(d: Desk, w: Wire, q: Queue, cfg: RiskConfig, g: nat, was: Group)
    requires IdsBelow(d)
    ensures PassFacts(d, w, cfg, g, was, Unwind(d, w, q, cfg, g, was))
  {
    var grp := was.(uncertain := was.uncertain || RepairInDoubt(d.orders, was.legs),
                    legs := RetireRepairs(d.orders, was.legs), exposed := HasResidual(was.legs));
    SameExposure(was.legs, grp.legs);
    hide Emits, SubmitRound, RepairInDoubt, RetireRepairs, HasResidual, RepairLive, ResidualCount, SomeLeg;
    if !grp.uncertain && grp.exposed && !RepairLive(d.orders, was.legs) && grp.repairRounds < cfg.maxRepairs {
      SubmitRoundFacts(d, Looked(w), q, cfg, g, grp);
      PassLooked(d, w, cfg, g, grp, SubmitRound(d, Looked(w), q, g, grp));
      WidenPass(d, w, cfg, g, was, grp, SubmitRound(d, Looked(w), q, g, grp));
    }
  }

  /** Facts about a pass from a group that differs only in repair ids and freshly found doubt. */
  lemma WidenPass(d: Desk, w: Wire, cfg: RiskConfig, g: nat, was: Group, grp: Group, r: Repair)
    requires GroupKept(was, grp) && grp == was.(legs := grp.legs, uncertain := grp.uncertain, exposed := grp.exposed)
    requires PassFacts(d, w, cfg, g, grp, r)
    ensures PassFacts(d, w, cfg, g, was, r)
  {
    hide DeskGrows, IdsBelow, HasResidual;
    if Emits(w, r.wire, UndoesLegs(g, grp.legs)) {
      SameUndoing(g, was.legs, grp.legs, w, r.wire);
    }
  }

  /** One pass of continue_group_repair(). */
  lemma RepairPassFacts(d: Desk, w: Wire, q: Queue, cfg: RiskConfig, g: nat, was: Group)
    requires IdsBelow(d)
    ensures PassFacts(d, w, cfg, g, was, RepairPass(d, w, q, cfg, g, was))
  {
    hide LegInDoubt, Cancelables, CancelRound, Unwind, SomeLeg, PassFacts;
    var grp := was.(uncertain := was.uncertain || LegInDoubt(d.orders, was.legs));
    var ids := Cancelables(d.orders, was.legs);
    if ids != [] {
      CancelRoundFacts(d, w, q, cfg, g, grp, ids);
      WidenPass(d, w, cfg, g, was, grp, CancelRound(d, w, q, cfg, g, grp, ids));
    } else if SomeLeg(d.orders, was.legs, CancelIsPending) {
      PauseFacts(d, w, cfg, g, was, grp);
    } else {
      UnwindFacts(d, w, q, cfg, g, grp);
      WidenPass(d, w, cfg, g, was, grp, Unwind(d, w, q, cfg, g, grp));
    }
  }

  lemma PauseFacts(d: Desk, w: Wire, cfg: RiskConfig, g: nat, was: Group, grp: Group)
    requires IdsBelow(d) && grp == was.(uncertain := grp.uncertain) && (was.uncertain ==> grp.uncertain)
    ensures PassFacts(d, w, cfg, g, was, Hold(d, w, grp.(state := UncertainOr(grp.uncertain, CancelingRemainder))))
  {
    hide HasResidual;
  }
}
