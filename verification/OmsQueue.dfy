/** The venue command queue behind the order manager's room checks: the answers of a single-producer
    single-consumer ring are honest, and over an honest queue a repair round that passed its room
    check goes out whole. */
module OmsQueue {
  import opened OmsTypes
  import opened Oms
  import opened OmsRepair
  import opened OmsLedger
  import opened OmsBooks
  import opened OmsMoney
  import opened OmsRuns
  import S = Spsc

  /** The `n` uses after use number `k` succeed if they are pushes. */
  predicate Promised(q: Queue, k: nat, n: nat) { forall j: nat :: k < j <= k + n ==> q.accept(j) }

  /** Room that was seen is room that is kept. */
  ghost predicate Honest(q: Queue) { forall k: nat, n: nat :: q.room(k) >= n ==> Promised(q, k, n) }

  // --------------------------------------------------------------- the ring is honest

  // What the producer of a ring was answered.
  datatype Use = PushUse(ok: bool) | LookUse(room: int)

  ghost function UsesOf<T>(r: S.Queue<T>, step: S.Step<T>): seq<Use>
    requires S.CanApply(r, step)
  {
    match step
    case PushDecide(_, _) => [PushUse(S.Apply(r, step).producer.PReady?)]
    case ReadSize(v) => [LookUse(r.ring.capacity - S.SizeResult(r, v))]
    case _ => []
  }

  /** The producer's uses in a run, in order. */
  ghost function Uses<T>(r: S.Queue<T>, steps: seq<S.Step<T>>): seq<Use>
    requires S.ValidRun(r, steps)
    decreases |steps|
  {
    if steps == [] then [] else UsesOf(r, steps[0]) + Uses(S.Apply(r, steps[0]), steps[1..])
  }

  /** The queue the order manager sees; what lies beyond the run is open. */
  ghost function AnswersOf(uses: seq<Use>): Queue {
    Queue((k: nat) => k < |uses| && uses[k].PushUse? ==> uses[k].ok,
          (k: nat) => if k < |uses| && uses[k].LookUse? then uses[k].room else 0)
  }

  /** Reserved slots carry that many uses. */
  lemma {:induction false} ReservedUses<T>(r: S.Queue<T>, steps: seq<S.Step<T>>, j: nat)
    requires S.Inv(r) && S.ValidRun(r, steps) && j < |Uses(r, steps)| && j < S.Reserved(r)
    ensures Uses(r, steps)[j].PushUse? ==> Uses(r, steps)[j].ok
    decreases |steps|
  {
    hide S.Inv, S.Apply;
    S.ReservedStep(r, steps[0]);
    var first := UsesOf(r, steps[0]);
    if j >= |first| {
      ReservedUses(S.Apply(r, steps[0]), steps[1..], j - |first|);
    }
  }

  lemma {:induction false} LookHolds<T>(r: S.Queue<T>, steps: seq<S.Step<T>>, k: nat, j: nat)
    requires S.Inv(r) && S.ValidRun(r, steps) && k < j < |Uses(r, steps)|
    requires Uses(r, steps)[k].LookUse? && j - k <= Uses(r, steps)[k].room
    ensures Uses(r, steps)[j].PushUse? ==> Uses(r, steps)[j].ok
    decreases |steps|
  {
    hide S.Inv;
    var r1 := S.Apply(r, steps[0]);
    S.StepInv(r, steps[0]);
    var first := UsesOf(r, steps[0]);
    if k >= |first| {
      LookHolds(r1, steps[1..], k - |first|, j - |first|);
    } else {
      S.SizeIsExact(r, steps[0].loaded);
      ReservedUses(r1, steps[1..], j - 1);
    }
  }

  /** Whatever the interleaving and however stale its loads, a ring answers its producer honestly. */
  lemma RingIsHonest<T>(capacity: nat, steps: seq<S.Step<T>>)
    requires S.GoodCapacity(capacity) && S.ValidRun(S.Init(capacity), steps)
    ensures Honest(AnswersOf(Uses(S.Init(capacity), steps)))
  {
    S.InitInv<T>(capacity);
    var uses := Uses(S.Init(capacity), steps);
    var q := AnswersOf(uses);
    forall k: nat, n: nat | q.room(k) >= n ensures Promised(q, k, n) {
      forall j: nat | k < j <= k + n ensures q.accept(j) {
        if j < |uses| && uses[k].LookUse? { LookHolds(S.Init(capacity), steps, k, j); }
      }
    }
  }

  // ------------------------------------------------------------ a round goes out whole

  lemma {:induction false} CancelRoundGoesOut(d: Desk, w: Wire, q: Queue, ids: seq<nat>, g: nat)
    requires w.uses > 0 && Promised(q, w.uses - 1, |ids|)
    requires AllDistinct(ids) && forall id :: id in ids ==> CanCancel(d.orders, id)
    ensures CancelEach(d, w, q, ids, g).2 == |ids|
    ensures |CancelEach(d, w, q, ids, g).1.log| == |w.log| + |ids|
    decreases |ids|
  {
    if ids != [] {
      var (d1, w1, ok) := EmitCancel(d, w, q, ids[0], g);
      assert ids[0] in ids && ok && w1.uses == w.uses + 1;
      forall id | id in ids[1..] ensures CanCancel(d1.orders, id) {
        var i :| 0 <= i < |ids[1..]| && ids[1..][i] == id;
        assert ids[i + 1] == id && CanCancel(d.orders, id);
      }
      CancelRoundGoesOut(d1, w1, q, ids[1..], g);
    }
  }

  lemma {:induction false} SubmitRoundGoesOut(d: Desk, w: Wire, q: Queue, g: nat, legs: seq<Leg>, i: nat, sent: nat)
    requires i <= |legs| && w.uses > 0 && Promised(q, w.uses - 1, ResidualCount(legs[i..])) && IdsBelow(d)
    ensures var r := SubmitEach(d, w, q, g, legs, i, sent);
            r.doubt || (r.sent == sent + ResidualCount(legs[i..]) && |r.wire.log| == |w.log| + ResidualCount(legs[i..]))
    ensures SubmitEach(d, w, q, g, legs, i, sent).doubt ==> SomeUnrepairable(d, legs, i)
    decreases |legs| - i
  {
    hide SomeUnrepairable, RepairIntent, RepairOrder;
    if i < |legs| {
      assert legs[i..][0] == legs[i] && legs[i..][1..] == legs[i + 1..];
      if legs[i].residual == 0 {
        SubmitRoundGoesOut(d, w, q, g, legs, i + 1, sent);
        SkipUnrepairable(d, legs, i);
      } else if !Unrepairable(d, legs[i]) {
        var original := d.orders[legs[i].request];
        var id := d.nextRequest;
        var d1 := WithOrder(d.(nextRequest := id + 1), id, RepairOrder(original, id, g, i, legs[i].residual));
        var legs1 := legs[i := legs[i].(repair := id)];
        assert legs1[i + 1..] == legs[i + 1..];
        var w1 := Wire(w.uses + 1, w.log + [Submit(id, RepairIntent(original, i, legs[i].residual), true, g)]);
        SubmitRoundGoesOut(d1, w1, q, g, legs1, i + 1, sent + 1);
        LaterUnrepairable(d, d1, legs, legs1, i);
      } else {
        HereUnrepairable(d, legs, i);
      }
    }
  }

  lemma HereUnrepairable(d: Desk, legs: seq<Leg>, i: nat)
    requires i < |legs| && legs[i].residual != 0 && Unrepairable(d, legs[i])
    ensures SomeUnrepairable(d, legs, i)
  {
  }

  /** Repairing leg `i` makes no later leg unrepairable. */
  lemma LaterUnrepairable(d: Desk, d1: Desk, legs: seq<Leg>, legs1: seq<Leg>, i: nat)
    requires i < |legs| == |legs1| && legs1[i + 1..] == legs[i + 1..]
    requires forall id :: id in d.orders ==> id in d1.orders && d1.orders[id] == d.orders[id]
    ensures SomeUnrepairable(d1, legs1, i + 1) ==> SomeUnrepairable(d, legs, i)
  {
    if SomeUnrepairable(d1, legs1, i + 1) {
      var j :| i + 1 <= j < |legs1| && legs1[j].residual != 0 && Unrepairable(d1, legs1[j]);
      assert legs1[i + 1..][j - i - 1] == legs[i + 1..][j - i - 1];
      assert legs1[j] == legs[j] && Unrepairable(d, legs[j]);
    }
  }

  lemma SkipUnrepairable(d: Desk, legs: seq<Leg>, i: nat)
    requires i < |legs|
    ensures SomeUnrepairable(d, legs, i + 1) ==> SomeUnrepairable(d, legs, i)
  {
  }

  /** Some leg from `i` on has a residual no repair order can be built for. */
  predicate SomeUnrepairable(d: Desk, legs: seq<Leg>, i: nat) {
    exists j :: i <= j < |legs| && legs[j].residual != 0 && Unrepairable(d, legs[j])
  }

  predicate AmongLegs(id: nat, legs: seq<Leg>) { exists i :: 0 <= i < |legs| && legs[i].request == id }

  predicate CanCancel(orders: map<nat, Order>, id: nat) { id in orders && IsCancelable(orders[id].state) }

  predicate AllDistinct(ids: seq<nat>) { forall i, j :: 0 <= i < j < |ids| ==> ids[i] != ids[j] }

  predicate DistinctLegs(legs: seq<Leg>) { forall i, j :: 0 <= i < j < |legs| ==> legs[i].request != legs[j].request }

  lemma {:induction false} CancelablesDistinct(orders: map<nat, Order>, legs: seq<Leg>)
    requires DistinctLegs(legs)
    ensures AllDistinct(Cancelables(orders, legs))
    ensures forall id :: id in Cancelables(orders, legs) ==> CanCancel(orders, id) && AmongLegs(id, legs)
  {
    if legs != [] {
      CancelablesDistinct(orders, legs[1..]);
      var rest := Cancelables(orders, legs[1..]);
      forall id | id in rest ensures id != legs[0].request && AmongLegs(id, legs) {
        assert AmongLegs(id, legs[1..]);
        var j :| 0 <= j < |legs[1..]| && legs[1..][j].request == id;
        assert legs[j + 1].request == id;
      }
      forall i | 0 <= i < |rest| ensures rest[i] != legs[0].request { assert rest[i] in rest; }
      assert AmongLegs(legs[0].request, legs);
    }
  }

  lemma {:induction false} ResidualsKept(legs: seq<Leg>, legs': seq<Leg>)
    requires SameLegs(legs, legs')
    ensures ResidualCount(legs') == ResidualCount(legs)
  {
    if legs != [] { ResidualsKept(legs[1..], legs'[1..]); }
  }

  /** What a pass over an honest queue sends, nothing or the whole round, and where doubt comes from. */
  predicate WholeRound(d: Desk, w: Wire, was: Group, r: Repair) {
    var ids := Cancelables(d.orders, was.legs);
    var n := |r.wire.log| - |w.log|;
    if ids != [] then
      (n == 0 || n == |ids|) && (r.group.uncertain ==> was.uncertain || LegInDoubt(d.orders, was.legs))
    else
      && (n == 0 || n == ResidualCount(was.legs) || SomeUnrepairable(d, was.legs, 0))
      && (r.group.uncertain ==>
            || was.uncertain || LegInDoubt(d.orders, was.legs)
            || RepairInDoubt(d.orders, was.legs) || SomeUnrepairable(d, was.legs, 0))
  }

  /** Over an honest queue a pass that found room loses no command: a round is sent whole or not at
      all, and doubt comes only from an order in doubt or a leg no repair order can be built for. */
  lemma HonestPass(d: Desk, w: Wire, q: Queue, cfg: RiskConfig, g: nat, was: Group)
    requires Honest(q) && IdsBelow(d) && LegsPlaced(d.orders, g, was.legs)
    ensures WholeRound(d, w, was, RepairPass(d, w, q, cfg, g, was))
  {
    hide Honest, Promised, CancelEach, SubmitEach, Cancelables, ResidualCount, RepairInDoubt, LegInDoubt,
         SomeUnrepairable, RepairLive, SomeLeg, HasResidual;
    var ids := Cancelables(d.orders, was.legs);
    forall i, j | 0 <= i < j < |was.legs| ensures was.legs[i].request != was.legs[j].request {
      assert LegPlaced(d.orders, g, i, was.legs[i]) && LegPlaced(d.orders, g, j, was.legs[j]);
    }
    CancelablesDistinct(d.orders, was.legs);
    if q.room(w.uses) >= |ids| {
      KeptPromise(q, w.uses, |ids|);
      CancelRoundGoesOut(d, Looked(w), q, ids, g);
    }
    var legs := RetireRepairs(d.orders, was.legs);
    ResidualsKept(was.legs, legs);
    if q.room(w.uses) >= ResidualCount(legs) {
      KeptPromise(q, w.uses, ResidualCount(legs));
      assert legs[0..] == legs;
      SubmitRoundGoesOut(d, Looked(w), q, g, legs, 0, 0);
      SameUnrepairable(d, was.legs, legs);
    }
  }

  lemma SameUnrepairable(d: Desk, legs: seq<Leg>, legs': seq<Leg>)
    requires SameLegs(legs, legs')
    ensures SomeUnrepairable(d, legs', 0) ==> SomeUnrepairable(d, legs, 0)
  {
    if SomeUnrepairable(d, legs', 0) {
      var j :| 0 <= j < |legs'| && legs'[j].residual != 0 && Unrepairable(d, legs'[j]);
      assert legs[j].residual != 0 && Unrepairable(d, legs[j]);
    }
  }

  lemma KeptPromise(q: Queue, k: nat, n: nat)
    requires Honest(q) && q.room(k) >= n
    ensures Promised(q, k, n)
  {
  }

  /** So it is at every group of a state that keeps the books, in or between handlers. */
  lemma HonestBooks(s: State, q: Queue, cfg: RiskConfig, g: nat)
    requires Honest(q) && Books(s, cfg) && g in s.groups
    ensures WholeRound(s.desk, s.wire, s.groups[g], RepairPass(s.desk, s.wire, q, cfg, g, s.groups[g]))
  {
    hide RepairPass, WholeRound, LedgerInv, FillsInv, MoneyInv, RoundsInv;
    assert Structure(s.desk, s.groups, s.nextGroup);
    HonestPass(s.desk, s.wire, q, cfg, g, s.groups[g]);
  }

  /** Over a ring, in every reachable state, a repair round that passed the room check goes out whole. */
  lemma RingRepairsGoOut<T>(capacity: nat, steps: seq<S.Step<T>>, s: State, cfg: RiskConfig, g: nat)
    requires S.GoodCapacity(capacity) && S.ValidRun(S.Init(capacity), steps)
    requires ValidRisk(cfg) && Reachable(s, AnswersOf(Uses(S.Init(capacity), steps)), cfg) && g in s.groups
    ensures WholeRound(s.desk, s.wire, s.groups[g],
                       RepairPass(s.desk, s.wire, AnswersOf(Uses(S.Init(capacity), steps)), cfg, g, s.groups[g]))
  {
    hide RepairPass, WholeRound, AnswersOf, Uses, S.ValidRun, Reachable, Honest, Books;
    var q := AnswersOf(Uses(S.Init(capacity), steps));
    RingIsHonest(capacity, steps);
    ReachableInv(s, q, cfg);
    HonestBooks(s, q, cfg, g);
  }

  /** A pass that is refused for room may be granted it on the very next look, with nothing pushed between. */
  lemma RoomMayComeBack(d: Desk, w: Wire, q: Queue, cfg: RiskConfig, g: nat, grp: Group, ids: seq<nat>)
    requires !grp.uncertain && grp.cancelRounds < cfg.maxRepairs && ids != []
    requires q.room(w.uses) < |ids| <= q.room(w.uses + 1) && q.accept(w.uses + 2) && CanCancel(d.orders, ids[0])
    ensures var first := CancelRound(d, w, q, cfg, g, grp, ids);
            && first.group.state.RepairRequired? && first.wire.log == w.log && first.desk == d
            && |CancelRound(d, first.wire, q, cfg, g, first.group, ids).wire.log| > |w.log|
  {
    var (d1, w1, ok) := EmitCancel(d, Looked(Looked(w)), q, ids[0], g);
    LogGrows(d1, w1, q, ids[1..], g);
  }

  lemma {:induction false} LogGrows(d: Desk, w: Wire, q: Queue, ids: seq<nat>, g: nat)
    ensures |CancelEach(d, w, q, ids, g).1.log| >= |w.log|
    decreases |ids|
  {
    if ids != [] {
      var (d1, w1, ok) := EmitCancel(d, w, q, ids[0], g);
      LogGrows(d1, w1, q, ids[1..], g);
    }
  }
}
