/** What holds over every run of the strategy, and how its intents meet the order manager's admission. */
module StrategyRuns {
  import opened Wrappers
  import opened Bits
  import Sums
  import opened OmsTypes
  import opened Oms
  import opened Arb
  import opened Strategy

  lemma StrategyStepInv(k: Identity, s: StrategyState, x: StrategyInput)
    requires StrategyInv(s) && Allowed(k, x)
    ensures StrategyInv(StrategyStep(k, s, x).0)
  {
    hide Evaluates, OnPair, OnPortfolio, OnAdmission, Retire, MapsAgree;
    match x
    case Pair(source, p, clock, now, e, pushed) =>
      if e.Accepted? { CandidateFacts(k.arb, p, now, e); }
      PairInv(k, s, source, p, clock, e, pushed);
    case EventUnavailable(source, stamps, event, revision) =>
    case Portfolio(strategy, sequence, reconciled, capital) =>
      PortfolioInv(k, s, strategy, sequence, reconciled, capital);
    case Position(strategy, sequence) =>
    case Admission(strategy, g, accepted) => AdmissionInv(k, s, strategy, g, accepted);
    case GroupUpdate(strategy, g, st) => if g in s.byId { RetireInv(s, g); }
  }

  /** Over every run the event and group maps stay inverse, the pending capital is what the active
      groups were promised, and identities neither wrap nor repeat an active group. */
  lemma {:induction false} StrategyRunInv(k: Identity, xs: seq<StrategyInput>)
    requires AllAllowed(k, xs)
    ensures StrategyInv(StateAfter(k, xs))
    decreases |xs|
  {
    hide StrategyInv, StrategyStep, Allowed;
    if xs == [] {
      StartInv();
    } else {
      StrategyRunInv(k, xs[..|xs| - 1]);
      StrategyStepInv(k, StateAfter(k, xs[..|xs| - 1]), xs[|xs| - 1]);
    }
  }

  lemma StartInv()
    ensures StrategyInv(Start())
  {
    Sums.SumEmpty(Start().byId, PendingOf);
  }

  lemma StateNext(k: Identity, xs: seq<StrategyInput>, n: nat)
    requires n < |xs|
    ensures StateAfter(k, xs[..n + 1]) == StrategyStep(k, StateAfter(k, xs[..n]), xs[n]).0
  {
    assert xs[..n + 1][..n] == xs[..n];
  }

  // ---------------------------------------------------------------- what never goes back

  ghost predicate Rises(m: map<nat, nat>, m': map<nat, nat>) { forall x: nat :: x in m ==> x in m' && m[x] <= m'[x] }

  ghost predicate Later(s: StrategyState, s': StrategyState) {
    && (s.blocked ==> s'.blocked) && s.nextGroup <= s'.nextGroup
    && Rises(s.lastPair, s'.lastPair) && Rises(s.unavailable, s'.unavailable)
  }

  lemma RisesPut(m: map<nat, nat>, x: nat, v: nat)
    requires x in m ==> m[x] <= v
    ensures Rises(m, m[x := v])
  {
  }

  lemma RisesSame(m: map<nat, nat>)
    ensures Rises(m, m)
  {
  }

  lemma PairLater(k: Identity, s: StrategyState, source: nat, p: PairInput, clock: Clock, e: Evaluation, pushed: bool)
    requires StrategyInv(s)
    ensures Later(s, OnPair(k, s, source, p, clock, e, pushed).0)
  {
    hide Rises, MapsAgree, Capital, Affordable, Promised;
    var o := p.observation;
    RisesSame(s.lastPair);
    RisesSame(s.unavailable);
    if Accepts(k, s, source, p, clock.dequeue) { RisesPut(s.lastPair, o.easier.market, o.revision); }
  }

  lemma StepLater(k: Identity, s: StrategyState, x: StrategyInput)
    requires StrategyInv(s)
    ensures Later(s, StrategyStep(k, s, x).0)
  {
    hide MapsAgree, Promised, OnPair, Counted, Rises;
    RisesSame(s.lastPair);
    RisesSame(s.unavailable);
    match x
    case Pair(source, p, clock, _, e, pushed) => PairLater(k, s, source, p, clock, e, pushed);
    case EventUnavailable(_, _, event, revision) =>
      RisesPut(s.unavailable, event, if event in s.unavailable && s.unavailable[event] > revision
               then s.unavailable[event] else revision);
    case _ =>
  }

  lemma {:induction false} RunLater(k: Identity, xs: seq<StrategyInput>, n: nat, m: nat)
    requires n <= m <= |xs| && AllAllowed(k, xs)
    ensures Later(StateAfter(k, xs[..n]), StateAfter(k, xs[..m]))
    decreases m
  {
    hide StrategyInv, StrategyStep, Allowed;
    if n < m {
      RunLater(k, xs, n, m - 1);
      StrategyRunInv(k, xs[..m - 1]);
      StepLater(k, StateAfter(k, xs[..m - 1]), xs[m - 1]);
      StateNext(k, xs, m - 1);
    }
  }

  // ---------------------------------------------------------------- what a published intent shows

  /** The state an intent is published from, and the state it leaves. */
  ghost predicate Publication(k: Identity, s: StrategyState, x: StrategyInput, s': StrategyState, intent: GroupIntent) {
    && x.Pair? && x.evaluation.Accepted? && Accepts(k, s, x.source, x.input, x.clock.dequeue) && !s.blocked
    && var a, o := x.evaluation.candidate, x.input.observation;
    && o.event !in s.byEvent && Capital(a).Some? && Affordable(s, Capital(a).value) && !Exhausted(s, a)
    && intent == MakeIntent(k, s, a, x.clock)
    && s' == TakeIdentities(Activate(s.(lastPair := s.lastPair[o.easier.market := o.revision]), a, Capital(a).value))
  }

  lemma PublishedFrom(k: Identity, s: StrategyState, x: StrategyInput)
    requires StrategyStep(k, s, x).1.Some?
    ensures Publication(k, s, x, StrategyStep(k, s, x).0, StrategyStep(k, s, x).1.value)
  {
    hide Capital, Accepts;
  }

  /** Once execution is blocked nothing is published again. */
  lemma BlockedIsSilent(k: Identity, xs: seq<StrategyInput>, n: nat, m: nat)
    requires n <= m < |xs| && AllAllowed(k, xs) && StateAfter(k, xs[..n]).blocked
    ensures IntentAt(k, xs, m).None?
  {
    RunLater(k, xs, n, m);
    if IntentAt(k, xs, m).Some? { PublishedFrom(k, StateAfter(k, xs[..m]), xs[m]); }
  }

  /** No identity is used twice in a run, and a pair is never acted on twice at one revision. */
  lemma IntentsAreFresh(k: Identity, xs: seq<StrategyInput>, n: nat, m: nat)
    requires n < m < |xs| && AllAllowed(k, xs) && IntentAt(k, xs, n).Some? && IntentAt(k, xs, m).Some?
    ensures var (first, second) := (IntentAt(k, xs, n).value, IntentAt(k, xs, m).value);
            && first.context.groupIntent < second.context.groupIntent && first.context.signal < second.context.signal
            && (forall i, j :: 0 <= i < |first.orders| && 0 <= j < |second.orders| ==>
                  first.orders[i].context.strategyIntent < second.orders[j].context.strategyIntent)
            && (first.context.market == second.context.market ==> first.context.revision < second.context.revision)
  {
    hide StrategyStep, Capital, Exhausted, Affordable, Evaluates, MapsAgree, Promised;
    var (s, t) := (StateAfter(k, xs[..n]), StateAfter(k, xs[..m]));
    PublishedFrom(k, s, xs[n]);
    PublishedFrom(k, t, xs[m]);
    StateNext(k, xs, n);
    RunLater(k, xs, n + 1, m);
    StrategyRunInv(k, xs[..n]);
    StrategyRunInv(k, xs[..m]);
    assert Allowed(k, xs[n]) && Allowed(k, xs[m]);
    CandidateFacts(k.arb, xs[n].input, xs[n].now, xs[n].evaluation);
    CandidateFacts(k.arb, xs[m].input, xs[m].now, xs[m].evaluation);
  }

  /** An event declared unavailable is acted on again only at a later revision. */
  lemma UnavailableIsRespected(k: Identity, xs: seq<StrategyInput>, n: nat, m: nat)
    requires n < m < |xs| && AllAllowed(k, xs) && IntentAt(k, xs, m).Some?
    requires xs[n].EventUnavailable? && Expected(k, xs[n].source, xs[n].stamps)
    ensures IntentAt(k, xs, m).value.context.event == xs[n].event ==>
              IntentAt(k, xs, m).value.context.revision > xs[n].revision
  {
    hide Capital, Exhausted, Affordable, Evaluates, MapsAgree, Promised;
    PublishedFrom(k, StateAfter(k, xs[..m]), xs[m]);
    StateNext(k, xs, n);
    RunLater(k, xs, n + 1, m);
    assert Allowed(k, xs[m]);
    CandidateFacts(k.arb, xs[m].input, xs[m].now, xs[m].evaluation);
  }

  /** Every group the strategy still counts on, and the new one, fit what it was last told is available. */
  lemma PromisesFitCapital(k: Identity, xs: seq<StrategyInput>, n: nat)
    requires n < |xs| && AllAllowed(k, xs) && IntentAt(k, xs, n).Some?
    ensures var s' := StateAfter(k, xs[..n + 1]);
            s'.portfolioSeen && s'.reconciled && Promised(s'.byId) == s'.pending <= Max(0, s'.available)
  {
    hide StrategyStep, Capital, Exhausted, Evaluates, MapsAgree, Promised;
    PublishedFrom(k, StateAfter(k, xs[..n]), xs[n]);
    StateNext(k, xs, n);
    StrategyRunInv(k, xs[..n + 1]);
  }

  // ---------------------------------------------------------------- one group per event

  /** The order manager's word that a group is over. */
  predicate Ends(k: Identity, x: StrategyInput, g: nat) {
    || (x.Admission? && x.strategy == k.index && x.group == g && !x.accepted)
    || (x.GroupUpdate? && x.strategy == k.index && x.group == g && TerminalState(x.state))
  }

  predicate Holds(s: StrategyState, g: nat, e: nat) { g in s.byId && s.byId[g].event == e }

  lemma PairHolds(k: Identity, s: StrategyState, source: nat, p: PairInput, clock: Clock, e: Evaluation, pushed: bool,
                  g: nat, event: nat)
    requires StrategyInv(s) && Holds(s, g, event)
    ensures Holds(OnPair(k, s, source, p, clock, e, pushed).0, g, event)
  {
    hide MapsAgree, Capital, Exhausted, Affordable, Promised, Accepts;
  }

  lemma StepHolds(k: Identity, s: StrategyState, x: StrategyInput, g: nat, e: nat)
    requires StrategyInv(s) && Holds(s, g, e) && !Ends(k, x, g)
    ensures Holds(StrategyStep(k, s, x).0, g, e)
  {
    hide MapsAgree, Promised, OnPair;
    if x.Pair? { PairHolds(k, s, x.source, x.input, x.clock, x.evaluation, x.pushed, g, e); }
  }

  lemma {:induction false} RunHolds(k: Identity, xs: seq<StrategyInput>, n: nat, m: nat, g: nat, e: nat)
    requires n <= m <= |xs| && AllAllowed(k, xs) && Holds(StateAfter(k, xs[..n]), g, e)
    requires forall i :: n <= i < m ==> !Ends(k, xs[i], g)
    ensures Holds(StateAfter(k, xs[..m]), g, e)
    decreases m
  {
    hide StrategyInv, StrategyStep, Allowed, Ends, Holds;
    if n < m {
      RunHolds(k, xs, n, m - 1, g, e);
      StrategyRunInv(k, xs[..m - 1]);
      StepHolds(k, StateAfter(k, xs[..m - 1]), xs[m - 1], g, e);
      StateNext(k, xs, m - 1);
    }
  }

  /** A second group for an event is published only after the order manager ended the first. */
  lemma OneGroupPerEvent(k: Identity, xs: seq<StrategyInput>, n: nat, m: nat)
    requires n < m < |xs| && AllAllowed(k, xs) && IntentAt(k, xs, n).Some? && IntentAt(k, xs, m).Some?
    requires IntentAt(k, xs, n).value.context.event == IntentAt(k, xs, m).value.context.event
    ensures exists i :: n < i < m && Ends(k, xs[i], IntentAt(k, xs, n).value.context.groupIntent)
  {
    hide StrategyStep, Capital, Exhausted, Affordable, Evaluates, Promised, Accepts, Ends;
    var (s, t, first) := (StateAfter(k, xs[..n]), StateAfter(k, xs[..m]), IntentAt(k, xs, n).value);
    PublishedFrom(k, s, xs[n]);
    PublishedFrom(k, t, xs[m]);
    StateNext(k, xs, n);
    StrategyRunInv(k, xs[..m]);
    assert Allowed(k, xs[n]) && Allowed(k, xs[m]);
    CandidateFacts(k.arb, xs[n].input, xs[n].now, xs[n].evaluation);
    CandidateFacts(k.arb, xs[m].input, xs[m].now, xs[m].evaluation);
    if forall i :: n < i < m ==> !Ends(k, xs[i], first.context.groupIntent) {
      RunHolds(k, xs, n + 1, m, first.context.groupIntent, first.context.event);
      assert false;
    }
  }

  // ---------------------------------------------------------------- at the order manager

  predicate Routed(s: State, market: nat, event: nat) {
    var route := RouteOf(s.gate.universe, market);
    route.Some? && route.value.tradeable && route.value.event == event
  }

  /** What the order manager asks of its own state, the clock and the sizes: nothing about the shape of the intent. */
  predicate Willing(s: State, cfg: RiskConfig, c: Context, now: nat, slots: Option<int>) {
    && !s.gate.incident && s.gate.trading && ReadyForTrading(s, cfg)
    && s.gate.universe.Some? && s.gate.universe.value.version == c.universe
    && slots.Some? && slots.value >= GROUP_ADMISSION_RESPONSE_SLOTS
    && cfg.maxLegs >= 2 && cfg.limit > 0 && cfg.maxGroupReservation > 0 && cfg.maxAge > 0
    && c.intentPublish <= now && now - c.intentPublish <= cfg.maxAge
    && !((c.strategy, c.groupIntent) in s.byIntent && s.byIntent[(c.strategy, c.groupIntent)] in s.groups)
  }

  predicate Funded(s: State, cfg: RiskConfig, strategy: nat, capital: nat) {
    capital <= cfg.maxGroupReservation && capital <= I64_MAX && capital <= PortfolioOf(s.money, cfg, strategy).available
  }

  /** A published intent is well-formed for the order manager: same envelope on both legs, prices inside
      the dollar, positive size, the timestamps in order, distinct markets and intents, an honest edge. */
  lemma PublishedIsWellFormed(k: Identity, s: StrategyState, x: StrategyInput, s': StrategyState, intent: GroupIntent)
    requires ValidIdentity(k) && StrategyInv(s) && Allowed(k, x) && Publication(k, s, x, s', intent)
    ensures var c := intent.context;
            && |intent.orders| == 2 == c.legCount && intent.policy.AllOrNone?
            && c.groupIntent != 0 && c.event != 0 && c.universe != 0 && TimestampChain(c)
            && intent.gross >= intent.fee && intent.net == intent.gross - intent.fee && intent.net != 0
    ensures forall i :: 0 <= i < |intent.orders| ==>
              && SameEnvelope(intent.orders[i].context, intent.context, i, |intent.orders|)
              && LegShape(intent.orders[i]) && TimestampChain(intent.orders[i].context)
              && !RepeatsEarlier(intent.orders, i)
              && intent.orders[i].quantity == k.arb.quantity
  {
    hide Evaluates, MapsAgree, Promised, Capital, Affordable;
    CandidateFacts(k.arb, x.input, x.now, x.evaluation);
  }

  /** The capital the strategy sets aside is what the order manager will reserve, exactly when the
      order manager can represent a leg's notional at all. */
  lemma CapitalAgrees(a: ArbCandidate)
    requires a.easier.quantity == a.harder.quantity > 0
    ensures FullNotional(a.easier.quantity).Some? <==> a.easier.quantity <= U64_MAX / PRICE_TICKS_PER_DOLLAR
    ensures FullNotional(a.easier.quantity).Some? ==>
              Capital(a) == Some(FullNotional(a.easier.quantity).value + FullNotional(a.harder.quantity).value)
  {
    FullNotionalIsDollarPerContract(a.easier.quantity);
  }

  /** A configured size the strategy accepts and the order manager does not: the bounds differ. */
  lemma SizesDisagree()
    ensures var q := U64_MAX / (DOLLAR - 1);
            FullNotional(q).None? && forall a: ArbCandidate ::
              a.easier.quantity == a.harder.quantity == q ==> Capital(a).Some?
  {
  }

  /** Admission of a published intent depends on the order manager alone: it goes through if and only if
      the order manager is willing, the markets are routed, the revision is not 0 and the size is
      representable and funded, and then the strategy's estimate is the reservation. */
  lemma PublishedIsAdmitted(k: Identity, s: StrategyState, x: StrategyInput, s': StrategyState, intent: GroupIntent,
                            oms: State, cfg: RiskConfig, now: nat, slots: Option<int>)
    requires ValidIdentity(k) && StrategyInv(s) && Allowed(k, x) && Publication(k, s, x, s', intent)
    ensures var capital := Capital(x.evaluation.candidate).value;
            JudgeGroup(oms, cfg, intent, now, slots) == (None, capital) <==>
            && Willing(oms, cfg, intent.context, now, slots) && intent.context.revision != 0
            && (forall i ::
                  0 <= i < |intent.orders| ==> Routed(oms, intent.orders[i].context.market, intent.context.event))
            && k.arb.quantity <= U64_MAX / PRICE_TICKS_PER_DOLLAR && Funded(oms, cfg, k.index, capital)
    ensures JudgeGroup(oms, cfg, intent, now, slots).0.None? ==>
              JudgeGroup(oms, cfg, intent, now, slots).1 == Capital(x.evaluation.candidate).value
  {
    hide StrategyInv, Evaluates, Publication, Capital, SameEnvelope, LegShape, TimestampChain, RepeatsEarlier,
         FullNotional, ReadyForTrading, RouteOf, PortfolioOf;
    PublishedIsWellFormed(k, s, x, s', intent);
    PublicationLegs(k, s, x, s', intent);
    CapitalAgrees(x.evaluation.candidate);
    JudgeTwo(oms.gate.universe, intent);
    FullNotionalIsDollarPerContract(k.arb.quantity);
  }

  lemma PublicationLegs(k: Identity, s: StrategyState, x: StrategyInput, s': StrategyState, intent: GroupIntent)
    requires ValidIdentity(k) && Allowed(k, x) && Publication(k, s, x, s', intent)
    ensures x.Pair? && x.evaluation.Accepted? && Capital(x.evaluation.candidate).Some?
    ensures intent.context.strategy == k.index
    ensures var a := x.evaluation.candidate; a.easier.quantity == a.harder.quantity == k.arb.quantity > 0
  {
    hide Evaluates;
    CandidateFacts(k.arb, x.input, x.now, x.evaluation);
  }

  /** The leg loop on two legs of one size. */
  lemma JudgeTwo(universe: Option<OrderUniverse>, intent: GroupIntent)
    requires |intent.orders| == 2 && intent.orders[0].quantity == intent.orders[1].quantity
    ensures var notional := FullNotional(intent.orders[0].quantity);
            var (reason, required) := JudgeLegs(universe, intent, 0, 0);
            && (reason.None? <==>
                  JudgeLeg(universe, intent, 0).None? && JudgeLeg(universe, intent, 1).None? && notional.Some?)
            && (reason.None? ==> required == 2 * notional.value)
  {
    hide JudgeLeg;
    FullNotionalIsDollarPerContract(intent.orders[0].quantity);
    var notional := FullNotional(intent.orders[0].quantity);
    if notional.Some? {
      assert JudgeLegs(universe, intent, 2, 2 * notional.value) == (None, 2 * notional.value);
    }
  }
}
