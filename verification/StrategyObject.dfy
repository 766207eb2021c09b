/** MonotonicArbStrategy as an object: each handler changes exactly what the value model says, and keeps
    the invariant of every run. */
module StrategyObject {
  import opened Wrappers
  import opened Bits
  import opened OmsTypes
  import opened Arb
  import opened Strategy
  import opened StrategyRuns

  class MonotonicArbStrategy {
    const identity: Identity
    var blocked: bool
    var portfolioSeen: bool
    var reconciled: bool
    var available: int
    var sequence: nat
    var pending: nat
    var nextGroup: nat
    var nextIntent: nat
    var nextSignal: nat
    var lastPair: map<nat, nat>
    var unavailable: map<nat, nat>
    var byEvent: map<nat, nat>
    var byId: map<nat, ActiveGroup>

    function Value(): StrategyState
      reads this
    {
      StrategyState(blocked, portfolioSeen, reconciled, available, sequence, pending, nextGroup, nextIntent, nextSignal,
                    lastPair, unavailable, byEvent, byId)
    }

    ghost predicate Valid()
      reads this
    {
      ValidIdentity(identity) && StrategyInv(Value())
    }

    constructor (k: Identity)
      requires ValidIdentity(k)
      ensures Valid() && identity == k && Value() == Start()
    {
      identity := k;
      blocked, portfolioSeen, reconciled, available, sequence, pending := false, false, false, 0, 0, 0;
      nextGroup, nextIntent, nextSignal := 1, 1, 1;
      lastPair, unavailable, byEvent, byId := map[], map[], map[], map[];
      new;
      StartInv();
    }

    /** required_capital_ticks(). */
    method RequiredCapital(a: ArbCandidate) returns (capital: Option<nat>)
      ensures capital == Capital(a)
    {
      var easier := LegExposure(a.easier.quantity);
      var harder := LegExposure(a.harder.quantity);
      if easier + harder > U64_MAX {
        return None;
      }
      return Some(easier + harder);
    }

    /** make_group_intent(): takes the next identities, or nothing when they are used up. */
    method MakeGroupIntent(a: ArbCandidate, clock: Clock) returns (intent: Option<GroupIntent>)
      modifies this`nextGroup, this`nextIntent, this`nextSignal
      ensures intent == if Exhausted(old(Value()), a) then None else Some(MakeIntent(identity, old(Value()), a, clock))
      ensures Value() == if intent.None? then old(Value()) else TakeIdentities(old(Value()))
    {
      if Exhausted(Value(), a) {
        return None;
      }
      var envelope := Envelope(identity, Value(), a, clock);
      var first, second := nextIntent, nextIntent + 1;
      nextGroup := Next(nextGroup);
      nextSignal := nextSignal + 1;
      nextIntent := nextIntent + 2;
      return Some(GroupIntent(envelope,
                              [LegIntent(envelope, a.easier, 0, first), LegIntent(envelope, a.harder, 1, second)],
                              AllOrNone, a.gross, a.fees, a.net));
    }

    /** handle_message() of a pair observation; `room` says whether the queue to the order manager takes one more. */
    method HandleObservation(source: nat, p: PairInput, clock: Clock, now: nat, room: bool)
      returns (published: Option<GroupIntent>, evaluation: Option<Evaluation>)
      requires Valid()
      modifies this
      ensures Valid()
      ensures evaluation.Some? <==>
              Accepts(identity, old(Value()), source, p, clock.dequeue) && !old(blocked)
                  && p.observation.event !in old(byEvent)
      ensures evaluation.Some? ==> Evaluates(identity.arb, p, now, evaluation.value)
      ensures (Value(), published) ==
              OnPair(identity, old(Value()), source, p, clock,
                     if evaluation.Some? then evaluation.value else Refused(NoReason), room)
    {
      hide Evaluates, StrategyInv, Exhausted, MakeIntent, Capital;
      var o, k := p.observation, identity;
      published, evaluation := None, None;
      ghost var e := Refused(NoReason);
      if Accepts(k, Value(), source, p, clock.dequeue) {
        lastPair := lastPair[o.easier.market := o.revision];
        if !blocked && o.event !in byEvent {
          var found := Evaluate(k.arb, p, now);
          e, evaluation := found, Some(found);
          if found.Accepted? {
            CandidateFacts(k.arb, p, now, found);
            published := HandleCandidate(found.candidate, clock, room);
          }
        }
      }
      PairInv(k, old(Value()), source, p, clock, e, room);
    }

    /** The rest of it, once the evaluation is accepted. */
    method HandleCandidate(a: ArbCandidate, clock: Clock, room: bool) returns (published: Option<GroupIntent>)
      modifies this
      ensures (Value(), published) == OnCandidate(identity, old(Value()), a, clock, room)
    {
      hide Exhausted, MakeIntent, Capital, Evaluates, StrategyInv;
      var capital := RequiredCapital(a);
      if capital.None? || !portfolioSeen || !reconciled {
        return None;
      }
      var ceiling := Max(0, available);
      if pending > ceiling || capital.value > ceiling - pending {
        return None;
      }
      var group := nextGroup;
      var intent := MakeGroupIntent(a, clock);
      if intent.None? {
        blocked := true;
        return None;
      }
      if !room {
        return None;
      }
      byEvent := byEvent[a.event := group];
      byId := byId[group := ActiveGroup(a.event, capital.value, true)];
      pending := pending + capital.value;
      return intent;
    }

    method HandleEventUnavailable(source: nat, stamps: Stamps, event: nat, revision: nat)
      requires Valid()
      modifies this`unavailable
      ensures Valid() && Value() == OnEventUnavailable(identity, old(Value()), source, stamps, event, revision)
    {
      if Expected(identity, source, stamps) {
        var known := if event in unavailable then unavailable[event] else 0;
        unavailable := unavailable[event := if known > revision then known else revision];
      }
    }

    method HandlePortfolio(strategy: nat, update: nat, isReconciled: bool, capital: int)
      requires Valid() && capital <= I64_MAX
      modifies this
      ensures Valid() && Value() == OnPortfolio(identity, old(Value()), strategy, update, isReconciled, capital)
    {
      hide MapsAgree, Promised, Strategy.Counted;
      PortfolioInv(identity, Value(), strategy, update, isReconciled, capital);
      if strategy != identity.index || update <= sequence {
        return;
      }
      sequence, portfolioSeen, reconciled, available := update, true, isReconciled, capital;
      CountAdmitted();
    }

    /** Every admitted group's capital is taken out of what is pending, one by one. */
    method CountAdmitted()
      requires pending == Promised(byId)
      modifies this`pending, this`byId
      ensures byId == Strategy.Counted(old(byId)) && pending == Promised(byId)
    {
      hide Promised;
      var todo := byId.Keys;
      while todo != {}
        invariant todo <= byId.Keys == old(byId).Keys
        invariant forall g: nat ::
                    g in byId ==> byId[g] == if g in todo then old(byId)[g] else CountedGroup(old(byId)[g])
        invariant pending == Promised(byId)
        decreases |todo|
      {
        var g: nat :| g in todo;
        var group := byId[g];
        if !group.admissionPending && group.pending > 0 {
          PromisedNat(byId);
          PromisedUpdate(byId, g, group.(pending := 0));
          pending := pending - Least(pending, group.pending);
          byId := byId[g := group.(pending := 0)];
        }
        todo := todo - {g};
      }
    }

    method HandlePosition(strategy: nat, update: nat)
      requires Valid()
      modifies this`sequence
      ensures Valid() && Value() == OnPosition(identity, old(Value()), strategy, update)
    {
      if strategy == identity.index && update > sequence {
        sequence := update;
      }
    }

    method HandleAdmission(strategy: nat, g: nat, accepted: bool)
      requires Valid()
      modifies this
      ensures Valid() && Value() == OnAdmission(identity, old(Value()), strategy, g, accepted)
    {
      hide MapsAgree;
      AdmissionInv(identity, Value(), strategy, g, accepted);
      if strategy != identity.index || g !in byId {
        return;
      }
      if accepted {
        byId := byId[g := byId[g].(admissionPending := false)];
      } else {
        Forget(g);
      }
    }

    method HandleGroupState(strategy: nat, g: nat, st: GroupState)
      requires Valid()
      modifies this
      ensures Valid() && Value() == OnGroupState(identity, old(Value()), strategy, g, st)
    {
      hide MapsAgree;
      if strategy != identity.index || g !in byId {
        return;
      }
      RetireInv(Value(), g);
      if UnsafeState(st) {
        blocked := true;
      } else if TerminalState(st) {
        Forget(g);
      }
    }

    method Forget(g: nat)
      requires g in byId
      modifies this`pending, this`byEvent, this`byId
      ensures Value() == Retire(old(Value()), g)
    {
      pending := pending - Least(pending, byId[g].pending);
      byEvent := byEvent - {byId[g].event};
      byId := byId - {g};
    }
  }
}
