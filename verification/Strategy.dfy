/** The arbitrage strategy (cpp/src/strategy/strategy.cpp) on values: what it believes about its own
    groups and capital, and the intents it publishes. */
module Strategy {
  import opened Wrappers
  import opened Bits
  import opened Sums
  import opened OmsTypes
  import opened Arb

  datatype Identity = Identity(index: nat, universe: nat, strategyId: nat, maximumAge: nat, arb: ArbConfig)

  // The monotonic clock, read when an observation is taken, evaluated, and its intent built.
  datatype Clock = Clock(dequeue: nat, evaluated: nat, published: nat)

  datatype ActiveGroup = ActiveGroup(event: nat, pending: nat, admissionPending: bool)

  datatype StrategyState = StrategyState(
    blocked: bool, portfolioSeen: bool, reconciled: bool, available: int, sequence: nat, pending: nat,
    nextGroup: nat, nextIntent: nat, nextSignal: nat,
    lastPair: map<nat, nat>, unavailable: map<nat, nat>, byEvent: map<nat, nat>, byId: map<nat, ActiveGroup>)

  function Start(): StrategyState {
    StrategyState(false, false, false, 0, 0, 0, 1, 1, 1, map[], map[], map[], map[])
  }

  predicate ValidIdentity(k: Identity) {
    k.universe != 0 && k.strategyId != 0 && k.maximumAge != 0 && ValidConfig(k.arb)
  }

  // ---------------------------------------------------------------- one observation

  predicate Expected(k: Identity, source: nat, stamps: Stamps) {
    stamps.shard == source && stamps.universe == k.universe
  }

  predicate Timely(k: Identity, stamps: Stamps, dequeue: nat) {
    && 0 != stamps.ingress <= stamps.bookApply <= stamps.published <= dequeue
    && dequeue - stamps.published <= k.maximumAge
  }

  predicate Newer(seen: map<nat, nat>, key: nat, revision: nat) { key in seen ==> revision > seen[key] }

  /** required_capital_ticks(). */
  function Capital(a: ArbCandidate): Option<nat> {
    var exposure := LegExposure(a.easier.quantity) + LegExposure(a.harder.quantity);
    if exposure > U64_MAX then None else Some(exposure)
  }

  function LegExposure(lots: nat): nat {
    var product := lots * PRICE_TICKS_PER_DOLLAR;
    product / QUANTITY_LOTS_PER_CONTRACT + if product % QUANTITY_LOTS_PER_CONTRACT != 0 then 1 else 0
  }

  predicate Exhausted(s: StrategyState, a: ArbCandidate) {
    || s.nextGroup == 0 || s.nextIntent == 0 || s.nextIntent > U32_MAX - 1 || s.nextSignal == 0
    || s.nextSignal > U32_MAX
    || a.easier.limit > I64_MAX || a.harder.limit > I64_MAX || a.easier.quantity > I64_MAX
    || a.harder.quantity > I64_MAX
  }

  function Next(id: nat): nat { if id >= U64_MAX then 0 else id + 1 }

  function Envelope(k: Identity, s: StrategyState, a: ArbCandidate, clock: Clock): Context {
    Context(k.index, a.easier.market, a.event, k.strategyId, 0, s.nextSignal, s.nextGroup, 0, 2,
            a.stamps.universe, a.revision, a.stamps.shard, a.stamps.ingress, a.stamps.bookApply, a.stamps.published,
            clock.dequeue, clock.evaluated, clock.published)
  }

  function LegIntent(envelope: Context, leg: ArbLeg, i: nat, id: nat): NewOrder {
    NewOrder(envelope.(market := leg.market, strategyIntent := id, leg := i), Yes, if leg.buysYes then Buy else Sell,
             Taker, MarketableLimit, Fok, leg.limit, leg.quantity)
  }

  /** make_group_intent(), when identities are left. */
  function MakeIntent(k: Identity, s: StrategyState, a: ArbCandidate, clock: Clock): GroupIntent {
    var envelope := Envelope(k, s, a, clock);
    GroupIntent(envelope,
                [LegIntent(envelope, a.easier, 0, s.nextIntent), LegIntent(envelope, a.harder, 1, s.nextIntent + 1)],
                AllOrNone, a.gross, a.fees, a.net)
  }

  function TakeIdentities(s: StrategyState): StrategyState {
    s.(nextGroup := Next(s.nextGroup), nextIntent := s.nextIntent + 2, nextSignal := s.nextSignal + 1)
  }

  /** Capital is known, reconciled, and what is not already promised to pending groups suffices. */
  predicate Affordable(s: StrategyState, capital: nat) {
    s.portfolioSeen && s.reconciled && s.pending + capital <= Max(0, s.available)
  }

  function Activate(s: StrategyState, a: ArbCandidate, capital: nat): StrategyState {
    s.(byEvent := s.byEvent[a.event := s.nextGroup],
       byId := s.byId[s.nextGroup := ActiveGroup(a.event, capital, true)],
       pending := s.pending + capital)
  }

  /** What follows an accepted evaluation; `pushed` says whether the queue to the order manager had room. */
  function OnCandidate(k: Identity, s: StrategyState, a: ArbCandidate, clock: Clock, pushed: bool)
    : (StrategyState, Option<GroupIntent>)
  {
    if Capital(a).None? || !Affordable(s, Capital(a).value) then (s, None)
    else if Exhausted(s, a) then (s.(blocked := true), None)
    else if !pushed then (TakeIdentities(s), None)
    else (TakeIdentities(Activate(s, a, Capital(a).value)), Some(MakeIntent(k, s, a, clock)))
  }

  /** The checks before an observation is evaluated. */
  predicate Accepts(k: Identity, s: StrategyState, source: nat, p: PairInput, dequeue: nat) {
    var o := p.observation;
    && Expected(k, source, p.stamps) && Timely(k, p.stamps, dequeue)
    && Newer(s.unavailable, o.event, o.revision) && Newer(s.lastPair, o.easier.market, o.revision)
  }

  /** handle_message() of an observation, whose evaluation, if it comes to that, is `e`. */
  function OnPair(k: Identity, s: StrategyState, source: nat, p: PairInput, clock: Clock, e: Evaluation, pushed: bool)
    : (StrategyState, Option<GroupIntent>)
  {
    var o := p.observation;
    if !Accepts(k, s, source, p, clock.dequeue) then (s, None)
    else
      var seen := s.(lastPair := s.lastPair[o.easier.market := o.revision]);
      if s.blocked || o.event in s.byEvent || e.Refused? then (seen, None)
      else OnCandidate(k, seen, e.candidate, clock, pushed)
  }

  // ---------------------------------------------------------------- the other messages

  function OnEventUnavailable(k: Identity, s: StrategyState, source: nat, stamps: Stamps, event: nat, revision: nat)
    : StrategyState
  {
    if !Expected(k, source, stamps) then s
    else
      var later := event in s.unavailable && s.unavailable[event] > revision;
      s.(unavailable := s.unavailable[event := if later then s.unavailable[event] else revision])
  }

  /** A portfolio reported after a group was admitted already counts that group's capital. */
  function Counted(groups: map<nat, ActiveGroup>): map<nat, ActiveGroup> {
    map g | g in groups :: CountedGroup(groups[g])
  }

  function CountedGroup(g: ActiveGroup): ActiveGroup { if g.admissionPending then g else g.(pending := 0) }

  function PendingOf(g: ActiveGroup): int { g.pending }
  ghost function Promised(groups: map<nat, ActiveGroup>): int { Sum(groups, PendingOf) }

  ghost function OnPortfolio(k: Identity, s: StrategyState, strategy: nat, sequence: nat, reconciled: bool,
                             available: int): StrategyState {
    if strategy != k.index || sequence <= s.sequence then s
    else
      s.(sequence := sequence, portfolioSeen := true, reconciled := reconciled, available := available,
         pending := Abs(Promised(Counted(s.byId))), byId := Counted(s.byId))
  }

  function OnPosition(k: Identity, s: StrategyState, strategy: nat, sequence: nat): StrategyState {
    if strategy != k.index || sequence <= s.sequence then s else s.(sequence := sequence)
  }

  /** Forget a group and the capital promised to it. */
  function Retire(s: StrategyState, g: nat): StrategyState
    requires g in s.byId
  {
    s.(pending := s.pending - Least(s.pending, s.byId[g].pending), byEvent := s.byEvent - {s.byId[g].event},
       byId := s.byId - {g})
  }

  function OnAdmission(k: Identity, s: StrategyState, strategy: nat, g: nat, accepted: bool): StrategyState {
    if strategy != k.index || g !in s.byId then s
    else if accepted then s.(byId := s.byId[g := s.byId[g].(admissionPending := false)])
    else Retire(s, g)
  }

  predicate UnsafeState(st: GroupState) { st.RepairRequired? || st.GroupUncertain? || st.RepairFailed? }
  predicate TerminalState(st: GroupState) { st.Completed? || st.Flattened? || st.Aborted? || st.GroupRejected? }

  function OnGroupState(k: Identity, s: StrategyState, strategy: nat, g: nat, st: GroupState): StrategyState {
    if strategy != k.index || g !in s.byId then s
    else if UnsafeState(st) then s.(blocked := true)
    else if TerminalState(st) then Retire(s, g)
    else s
  }

  // ---------------------------------------------------------------- runs

  datatype StrategyInput =
    | Pair(source: nat, input: PairInput, clock: Clock, now: nat, evaluation: Evaluation, pushed: bool)
    | EventUnavailable(source: nat, stamps: Stamps, event: nat, revision: nat)
    | Portfolio(strategy: nat, sequence: nat, portfolioReconciled: bool, capital: int)
    | Position(strategy: nat, sequence: nat)
    | Admission(strategy: nat, group: nat, accepted: bool)
    | GroupUpdate(strategy: nat, group: nat, state: GroupState)

  ghost function StrategyStep(k: Identity, s: StrategyState, x: StrategyInput): (StrategyState, Option<GroupIntent>) {
    match x
    case Pair(source, p, clock, _, e, pushed) => OnPair(k, s, source, p, clock, e, pushed)
    case EventUnavailable(source, stamps, event, revision) =>
      (OnEventUnavailable(k, s, source, stamps, event, revision), None)
    case Portfolio(strategy, sequence, reconciled, capital) =>
      (OnPortfolio(k, s, strategy, sequence, reconciled, capital), None)
    case Position(strategy, sequence) => (OnPosition(k, s, strategy, sequence), None)
    case Admission(strategy, g, accepted) => (OnAdmission(k, s, strategy, g, accepted), None)
    case GroupUpdate(strategy, g, st) => (OnGroupState(k, s, strategy, g, st), None)
  }

  /** The evaluation is the evaluator's, the clock does not run backwards, capital is a signed 64-bit amount. */
  ghost predicate Allowed(k: Identity, x: StrategyInput) {
    && (x.Pair? ==>
          Evaluates(k.arb, x.input, x.now, x.evaluation) && x.clock.dequeue <= x.clock.evaluated <= x.clock.published)
    && (x.Portfolio? ==> x.capital <= I64_MAX)
  }

  ghost predicate AllAllowed(k: Identity, xs: seq<StrategyInput>) { forall i :: 0 <= i < |xs| ==> Allowed(k, xs[i]) }

  ghost function StateAfter(k: Identity, xs: seq<StrategyInput>): StrategyState {
    if xs == [] then Start() else StrategyStep(k, StateAfter(k, xs[..|xs| - 1]), xs[|xs| - 1]).0
  }

  /** What the strategy publishes on input `n` of a run. */
  ghost function IntentAt(k: Identity, xs: seq<StrategyInput>, n: nat): Option<GroupIntent>
    requires n < |xs|
  {
    StrategyStep(k, StateAfter(k, xs[..n]), xs[n]).1
  }

  // ---------------------------------------------------------------- the invariant

  /** The two maps are inverse to each other. */
  ghost predicate MapsAgree(byEvent: map<nat, nat>, byId: map<nat, ActiveGroup>) {
    && (forall e: nat :: e in byEvent ==> byEvent[e] in byId && byId[byEvent[e]].event == e)
    && (forall g: nat :: g in byId ==> byId[g].event in byEvent && byEvent[byId[g].event] == g)
  }

  /** The identities advance together, so none of them wraps before the guard that stops them. */
  ghost predicate IdentitiesInStep(s: StrategyState) {
    && 1 <= s.nextGroup && s.nextSignal == s.nextGroup && s.nextIntent == 2 * s.nextGroup - 1 <= U32_MAX + 1
    && forall g: nat :: g in s.byId ==> g < s.nextGroup
  }

  ghost predicate StrategyInv(s: StrategyState) {
    MapsAgree(s.byEvent, s.byId) && IdentitiesInStep(s) && s.pending == Promised(s.byId) <= I64_MAX
        && s.available <= I64_MAX
  }

  lemma PromisedNat(groups: map<nat, ActiveGroup>)
    ensures Promised(groups) >= 0
    ensures forall g: nat :: g in groups ==> groups[g].pending <= Promised(groups)
  {
    SumNonNegative(groups, PendingOf);
    forall g: nat | g in groups ensures groups[g].pending <= Promised(groups) { SumBoundsPart(groups, g, PendingOf); }
  }

  lemma PromisedUpdate(groups: map<nat, ActiveGroup>, g: nat, group: ActiveGroup)
    requires g in groups
    ensures Promised(groups[g := group]) == Promised(groups) - groups[g].pending + group.pending
  {
    SumUpdate(groups, g, group, PendingOf);
  }

  lemma {:induction false} CountedLess(groups: map<nat, ActiveGroup>)
    ensures Promised(Counted(groups)) <= Promised(groups)
    decreases |groups|
  {
    if g: nat :| g in groups {
      SumTake(groups, g, PendingOf);
      SumTake(Counted(groups), g, PendingOf);
      assert Counted(groups) - {g} == Counted(groups - {g});
      CountedLess(groups - {g});
    } else {
      assert Counted(groups) == groups;
    }
  }

  lemma MapsRetire(byEvent: map<nat, nat>, byId: map<nat, ActiveGroup>, g: nat)
    requires MapsAgree(byEvent, byId) && g in byId
    ensures MapsAgree(byEvent - {byId[g].event}, byId - {g})
  {
    var byEvent', byId' := byEvent - {byId[g].event}, byId - {g};
    forall x: nat | x in byEvent' ensures byEvent'[x] in byId' && byId'[byEvent'[x]].event == x {
      assert byEvent[x] != g;
    }
    forall h: nat | h in byId' ensures byId'[h].event in byEvent' && byEvent'[byId'[h].event] == h {
      assert byEvent[byId[h].event] == h;
    }
  }

  lemma MapsKeep(byEvent: map<nat, nat>, byId: map<nat, ActiveGroup>, byId': map<nat, ActiveGroup>)
    requires MapsAgree(byEvent, byId) && byId'.Keys == byId.Keys
    requires forall g: nat :: g in byId ==> byId'[g].event == byId[g].event
    ensures MapsAgree(byEvent, byId')
  {
  }

  lemma RetireInv(s: StrategyState, g: nat)
    requires StrategyInv(s) && g in s.byId
    ensures StrategyInv(Retire(s, g))
    ensures Retire(s, g).pending == s.pending - s.byId[g].pending
  {
    hide MapsAgree;
    PromisedNat(s.byId);
    SumTake(s.byId, g, PendingOf);
    MapsRetire(s.byEvent, s.byId, g);
  }

  lemma MapsActivate(byEvent: map<nat, nat>, byId: map<nat, ActiveGroup>, e: nat, g: nat, group: ActiveGroup)
    requires MapsAgree(byEvent, byId) && e !in byEvent && g !in byId && group.event == e
    ensures MapsAgree(byEvent[e := g], byId[g := group])
  {
  }

  lemma ActivateInv(s: StrategyState, a: ArbCandidate, capital: nat)
    requires StrategyInv(s) && a.event !in s.byEvent && Affordable(s, capital) && !Exhausted(s, a)
    ensures StrategyInv(TakeIdentities(Activate(s, a, capital)))
  {
    hide MapsAgree;
    var group := ActiveGroup(a.event, capital, true);
    SumUpdate(s.byId, s.nextGroup, group, PendingOf);
    MapsActivate(s.byEvent, s.byId, a.event, s.nextGroup, group);
  }

  lemma PairInv(k: Identity, s: StrategyState, source: nat, p: PairInput, clock: Clock, e: Evaluation, pushed: bool)
    requires StrategyInv(s) && (e.Accepted? ==> e.candidate.event == p.observation.event)
    ensures StrategyInv(OnPair(k, s, source, p, clock, e, pushed).0)
  {
    hide Exhausted, Capital, Accepts, Promised;
    var o := p.observation;
    var seen := s.(lastPair := s.lastPair[o.easier.market := o.revision]);
    if Accepts(k, s, source, p, clock.dequeue) && !s.blocked && o.event !in s.byEvent && e.Accepted? {
      var a := e.candidate;
      if Capital(a).Some? && Affordable(seen, Capital(a).value) && !Exhausted(seen, a) {
        ActivateInv(seen, a, Capital(a).value);
        IdentitiesLeft(seen, a);
      }
    }
  }

  lemma IdentitiesLeft(s: StrategyState, a: ArbCandidate)
    requires !Exhausted(s, a)
    ensures s.nextIntent <= U32_MAX - 1
  {
  }

  lemma PortfolioInv(k: Identity, s: StrategyState, strategy: nat, sequence: nat, reconciled: bool, available: int)
    requires StrategyInv(s) && available <= I64_MAX
    ensures StrategyInv(OnPortfolio(k, s, strategy, sequence, reconciled, available))
  {
    CountedLess(s.byId);
    PromisedNat(Counted(s.byId));
  }

  lemma AdmissionInv(k: Identity, s: StrategyState, strategy: nat, g: nat, accepted: bool)
    requires StrategyInv(s)
    ensures StrategyInv(OnAdmission(k, s, strategy, g, accepted))
  {
    hide MapsAgree, Retire;
    if g in s.byId {
      if accepted {
        var admitted := s.byId[g].(admissionPending := false);
        SumUpdate(s.byId, g, admitted, PendingOf);
        MapsKeep(s.byEvent, s.byId, s.byId[g := admitted]);
      } else {
        RetireInv(s, g);
      }
    }
  }
}
