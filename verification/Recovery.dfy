/** The recovery coordinator (cpp/src/control/recovery_coordinator.cpp) on values: the state,
    what each operation does to it, and the latch-coherence invariant. */
module Recovery {
  import opened Wrappers
  import opened Bits

  datatype Phase = PendingRequest | RequestEnqueued | RequestAccepted | SnapshotApplied | Failed | Superseded

  predicate Finished(phase: Phase) {
    phase.SnapshotApplied? || phase.Superseded?
  }

  datatype Origin = UnknownOrigin | WireSession | RouterOrigin | ShardOrigin
  datatype Reason = NoReason | WirePoolExhaustion | WireToRouterLoss | RouterToShardLoss
                  | ShardFrameMissing | ShardParseFailure | ExchangeSequenceGap
  datatype IncidentKey = IncidentKey(origin: Origin, producer: nat, incident: nat)
  datatype SourceKey = SourceKey(universe: nat, incident: IncidentKey)

  datatype Entry = Entry(market: nat, event: nat, shard: nat, phase: Phase,
                         attempts: nat, lastAttempt: int, nextAttempt: int)

  datatype Incident = Incident(id: nat, source: IncidentKey, universe: nat, sid: nat, reason: Reason,
                               entries: seq<Entry>, startedAt: int, lastProgress: int)

  datatype Route = Route(market: nat, event: nat, shard: nat)
  datatype Universe = Universe(version: nat, routes: seq<Route>)

  datatype Config = Config(maxAttempts: nat, initialBackoff: nat, maxBackoff: nat,
                           requestAckTimeout: int, snapshotTimeout: int)

  datatype Coordinator = Coordinator(
    nextId: nat,
    incidents: map<nat, Incident>,
    bySource: map<SourceKey, nat>,
    latch: map<nat, nat>)

  const Empty := Coordinator(1, map[], map[], map[])

  // ------------------------------------------------------------------ facts

  datatype MarketFact = MarketFact(universe: nat, shard: nat, incident: IncidentKey, sid: nat,
                                   market: nat, event: nat, reason: Reason)
  datatype BarrierFact = BarrierFact(universe: nat, incident: IncidentKey, sid: nat, reason: Reason)
  datatype RequestFact = RequestFact(recovery: nat, universe: nat, market: nat, attempt: nat)
  datatype Transition = NoTransition | InitialInstalled | BecameUnusable | Recovered | RecoveryRequired
  datatype AppliedFact = AppliedFact(recovery: nat, universe: nat, shard: nat, market: nat, transition: Transition)

  datatype Code = Created | Duplicate | StaleUniverse | InvalidIncident | InvalidReason
                | UnknownMarket | RouteMismatch | AlreadyRecovering | IdExhausted
  datatype Observation = Observation(code: Code, id: nat, affected: nat)

  datatype Disposition = Applied | Ignored | Rejected
  datatype Effect = NoEffect | AcceptedEffect | RetryScheduled | MarketRecovered | MarketFailed
  datatype FactResult = FactResult(disposition: Disposition, effect: Effect, completed: bool, duration: int)

  const REJECTED := FactResult(Rejected, NoEffect, false, 0)
  const IGNORED := FactResult(Ignored, NoEffect, false, 0)

  // ---------------------------------------------------------------- observe

  /** What observing a fact amounts to: an answer, or an incident to create. */
  datatype Verdict = Answer(code: Code, id: nat) | Create(entries: seq<Entry>)

  predicate ValidTargetedSource(f: MarketFact) {
    match f.reason
    case WirePoolExhaustion => f.incident.origin.WireSession? && f.incident.producer == 0
    case WireToRouterLoss => f.incident.origin.WireSession? && f.incident.producer == 0
    case RouterToShardLoss => f.incident.origin.RouterOrigin? && f.incident.producer == 0
    case ShardFrameMissing => f.incident.origin.ShardOrigin? && f.incident.producer == f.shard
    case ShardParseFailure => f.incident.origin.ShardOrigin? && f.incident.producer == f.shard
    case NoReason => false
    case ExchangeSequenceGap => false
  }

  /** The first route of a market, as a linear search finds it. */
  function FindRoute(routes: seq<Route>, market: nat): (r: Option<Route>)
    ensures r.None? <==> forall i :: 0 <= i < |routes| ==> routes[i].market != market
    ensures r.Some? ==> r.value in routes && r.value.market == market
  {
    if routes == [] then None
    else if routes[0].market == market then Some(routes[0])
    else FindRoute(routes[1..], market)
  }

  function NewEntry(r: Route, now: int): Entry {
    Entry(r.market, r.event, r.shard, PendingRequest, 0, 0, now)
  }

  /** Entries for the routed markets that no recovery holds yet, in route order. */
  function FreshEntries(routes: seq<Route>, latch: map<nat, nat>, now: int): (es: seq<Entry>)
    ensures forall i :: 0 <= i < |es| ==>
              es[i].market !in latch && es[i].phase.PendingRequest? && es[i].attempts == 0
  {
    if routes == [] then []
    else (if routes[0].market in latch then [] else [NewEntry(routes[0], now)])
         + FreshEntries(routes[1..], latch, now)
  }

  /** The recovery named in the answer when every routed market is already held. */
  function FirstHolder(routes: seq<Route>, latch: map<nat, nat>): nat {
    if routes == [] then 0
    else if routes[0].market in latch && latch[routes[0].market] != 0 then latch[routes[0].market]
    else FirstHolder(routes[1..], latch)
  }

  function JudgeMarket(c: Coordinator, f: MarketFact, u: Universe, now: int): Verdict {
    var route := FindRoute(u.routes, f.market);
    var key := SourceKey(f.universe, f.incident);
    if u.version == 0 || u.version != f.universe then Answer(StaleUniverse, 0)
    else if f.incident.origin.UnknownOrigin? || f.incident.incident == 0 then Answer(InvalidIncident, 0)
    else if !ValidTargetedSource(f) then Answer(InvalidReason, 0)
    else if route.None? then Answer(UnknownMarket, 0)
    else if route.value.event != f.event || route.value.shard != f.shard then Answer(RouteMismatch, 0)
    else if key in c.bySource then Answer(Duplicate, c.bySource[key])
    else if f.market in c.latch then Answer(AlreadyRecovering, c.latch[f.market])
    else if c.nextId == 0 then Answer(IdExhausted, 0)
    else Create([NewEntry(Route(f.market, f.event, f.shard), now)])
  }

  function JudgeBarrier(c: Coordinator, f: BarrierFact, u: Universe, now: int): Verdict {
    var key := SourceKey(f.universe, f.incident);
    if u.version == 0 || u.version != f.universe then Answer(StaleUniverse, 0)
    else if !f.incident.origin.WireSession? || f.incident.producer != 0 || f.incident.incident == 0 then
      Answer(InvalidIncident, 0)
    else if !f.reason.ExchangeSequenceGap? then Answer(InvalidReason, 0)
    else if key in c.bySource then Answer(Duplicate, c.bySource[key])
    else if u.routes == [] then Answer(UnknownMarket, 0)
    else if c.nextId == 0 then Answer(IdExhausted, 0)
    else
      var entries := FreshEntries(u.routes, c.latch, now);
      if entries == [] then Answer(AlreadyRecovering, FirstHolder(u.routes, c.latch))
      else Create(entries)
  }

  function Markets(entries: seq<Entry>): set<nat> {
    set i | 0 <= i < |entries| :: entries[i].market
  }

  predicate DistinctMarkets(entries: seq<Entry>) {
    forall i, j :: 0 <= i < j < |entries| ==> entries[i].market != entries[j].market
  }

  function MakeIncident(id: nat, key: SourceKey, sid: nat, reason: Reason, entries: seq<Entry>, now: int): Incident {
    Incident(id, key.incident, key.universe, sid, reason, entries, now, now)
  }

  /** The committed creation: incident, source key and one latch per entry. */
  function CreateIncident(c: Coordinator, key: SourceKey, sid: nat, reason: Reason,
                          entries: seq<Entry>, now: int): Coordinator
  {
    var id := c.nextId;
    Coordinator(
      Inc64(c.nextId),
      c.incidents[id := MakeIncident(id, key, sid, reason, entries, now)],
      c.bySource[key := id],
      c.latch + (map m | m in Markets(entries) :: id))
  }

  /** observe() when no insertion throws. */
  function ObserveMarket(c: Coordinator, f: MarketFact, u: Universe, now: int): (Coordinator, Observation) {
    match JudgeMarket(c, f, u, now)
    case Answer(code, id) => (c, Observation(code, id, 0))
    case Create(es) => (CreateIncident(c, SourceKey(f.universe, f.incident), f.sid, f.reason, es, now),
                        Observation(Created, c.nextId, |es|))
  }

  function ObserveBarrier(c: Coordinator, f: BarrierFact, u: Universe, now: int): (Coordinator, Observation) {
    match JudgeBarrier(c, f, u, now)
    case Answer(code, id) => (c, Observation(code, id, 0))
    case Create(es) => (CreateIncident(c, SourceKey(f.universe, f.incident), f.sid, f.reason, es, now),
                        Observation(Created, c.nextId, |es|))
  }

  // -------------------------------------------------------------- supersede

  predicate Unfinished(e: Entry) { !Finished(e.phase) }

  predicate HasUnfinished(entries: seq<Entry>) {
    exists i :: 0 <= i < |entries| && Unfinished(entries[i])
  }

  function SupersedeEntry(e: Entry): Entry {
    if Unfinished(e) then e.(phase := Superseded) else e
  }

  function SupersedeEntries(entries: seq<Entry>): (r: seq<Entry>)
    ensures |r| == |entries|
    ensures forall i :: 0 <= i < |r| ==> r[i] == SupersedeEntry(entries[i])
  {
    seq(|entries|, i requires 0 <= i < |entries| => SupersedeEntry(entries[i]))
  }

  function SupersedeIncident(inc: Incident, version: nat, now: int): Incident {
    if inc.universe == version || !HasUnfinished(inc.entries) then inc
    else inc.(entries := SupersedeEntries(inc.entries), lastProgress := now)
  }

  function Supersede(c: Coordinator, version: nat, now: int): Coordinator {
    if version == 0 then c
    else c.(incidents := map r | r in c.incidents :: SupersedeIncident(c.incidents[r], version, now),
            latch := map m | m in c.latch && c.latch[m] in c.incidents
                               && c.incidents[c.latch[m]].universe == version :: c.latch[m])
  }

  // ------------------------------------------------------------ requests

  predicate Ready(e: Entry, now: int) {
    e.phase.PendingRequest? && e.nextAttempt <= now && e.attempts != U32_MAX
  }

  datatype Command = Command(recovery: nat, universe: nat, market: nat, attempt: nat)

  function CommandFor(inc: Incident, e: Entry): Command {
    Command(inc.id, inc.universe, e.market, e.attempts + 1)
  }

  /** First entry for a market, as a linear search finds it. */
  function FindEntry(entries: seq<Entry>, market: nat): (i: Option<nat>)
    ensures i.None? <==> forall k :: 0 <= k < |entries| ==> entries[k].market != market
    ensures i.Some? ==> i.value < |entries| && entries[i.value].market == market
  {
    if entries == [] then None
    else if entries[0].market == market then Some(0)
    else
      var rest := FindEntry(entries[1..], market);
      if rest.None? then None else Some(rest.value + 1)
  }

  /** The entry an I/O or shard fact speaks about. */
  function Locate(c: Coordinator, recovery: nat, universe: nat, market: nat): (i: Option<nat>)
    ensures i.Some? ==> recovery in c.incidents && c.incidents[recovery].universe == universe &&
                        i.value < |c.incidents[recovery].entries| &&
                        c.incidents[recovery].entries[i.value].market == market
  {
    if recovery !in c.incidents || c.incidents[recovery].universe != universe then None
    else FindEntry(c.incidents[recovery].entries, market)
  }

  function WithEntry(c: Coordinator, r: nat, i: nat, e: Entry, now: int): Coordinator
    requires r in c.incidents && i < |c.incidents[r].entries|
  {
    var inc := c.incidents[r];
    c.(incidents := c.incidents[r := inc.(entries := inc.entries[i := e], lastProgress := now)])
  }

  predicate Holds(c: Coordinator, market: nat, recovery: nat) {
    market in c.latch && c.latch[market] == recovery
  }

  function MarkEnqueued(c: Coordinator, cmd: Command, now: int): (Coordinator, bool) {
    var at := Locate(c, cmd.recovery, cmd.universe, cmd.market);
    if at.None? || !Holds(c, cmd.market, cmd.recovery) then (c, false)
    else
      var e := c.incidents[cmd.recovery].entries[at.value];
      if !Ready(e, now) || cmd.attempt != e.attempts + 1 then (c, false)
      else (WithEntry(c, cmd.recovery, at.value,
                      e.(attempts := cmd.attempt, phase := RequestEnqueued, lastAttempt := now), now), true)
  }

  /** retry_backoff(): doubling from the initial delay, capped. */
  function Backoff(cfg: Config, attempts: nat): (d: nat)
    ensures d <= cfg.maxBackoff
  {
    var doubled := cfg.initialBackoff * Pow2(if attempts == 0 then 0 else attempts - 1);
    if doubled <= cfg.maxBackoff then doubled else cfg.maxBackoff
  }

  /** A failed attempt either exhausts the entry or schedules the next one. */
  function AfterFailure(cfg: Config, e: Entry, now: int): Entry {
    if e.attempts >= cfg.maxAttempts then e.(phase := Failed)
    else e.(phase := PendingRequest, nextAttempt := now + Backoff(cfg, e.attempts))
  }

  function HandleAccepted(c: Coordinator, f: RequestFact, now: int): (Coordinator, FactResult) {
    var at := Locate(c, f.recovery, f.universe, f.market);
    if at.None? then (c, REJECTED)
    else
      var e := c.incidents[f.recovery].entries[at.value];
      if f.attempt < e.attempts then (c, IGNORED)
      else if f.attempt > e.attempts then (c, REJECTED)
      else if !Holds(c, f.market, f.recovery) || !e.phase.RequestEnqueued? then (c, IGNORED)
      else (WithEntry(c, f.recovery, at.value, e.(phase := RequestAccepted, lastAttempt := now), now),
            FactResult(Applied, AcceptedEffect, false, 0))
  }

  function HandleFailed(c: Coordinator, cfg: Config, f: RequestFact, now: int): (Coordinator, FactResult) {
    var at := Locate(c, f.recovery, f.universe, f.market);
    if at.None? then (c, REJECTED)
    else
      var e := c.incidents[f.recovery].entries[at.value];
      if f.attempt < e.attempts then (c, IGNORED)
      else if f.attempt > e.attempts then (c, REJECTED)
      else if !Holds(c, f.market, f.recovery) || !(e.phase.RequestEnqueued? || e.phase.RequestAccepted?) then
        (c, IGNORED)
      else (WithEntry(c, f.recovery, at.value, AfterFailure(cfg, e, now), now),
            FactResult(Applied, if e.attempts >= cfg.maxAttempts then MarketFailed else RetryScheduled, false, 0))
  }

  predicate AllFinished(entries: seq<Entry>) {
    forall i :: 0 <= i < |entries| ==> Finished(entries[i].phase)
  }

  predicate RouteAgrees(u: Universe, f: AppliedFact, e: Entry) {
    var route := FindRoute(u.routes, f.market);
    route.Some? && route.value.shard == f.shard && route.value.shard == e.shard && route.value.event == e.event
  }

  function HandleApplied(c: Coordinator, f: AppliedFact, u: Universe, now: int): (Coordinator, FactResult) {
    var at := Locate(c, f.recovery, f.universe, f.market);
    if u.version == 0 || f.universe != u.version then (c, IGNORED)
    else if at.None? then (c, REJECTED)
    else
      var e := c.incidents[f.recovery].entries[at.value];
      if !RouteAgrees(u, f, e) then (c, REJECTED)
      else if !Holds(c, f.market, f.recovery) || Finished(e.phase) then (c, IGNORED)
      else if e.phase.PendingRequest? && e.attempts == 0 then (c, REJECTED)
      else if !f.transition.Recovered? && !f.transition.NoTransition? then (c, REJECTED)
      else
        var c1 := WithEntry(c, f.recovery, at.value, e.(phase := SnapshotApplied), now);
        var done := AllFinished(c1.incidents[f.recovery].entries);
        (c1.(latch := c.latch - {f.market}),
         FactResult(Applied, MarketRecovered, done, if done then now - c.incidents[f.recovery].startedAt else 0))
  }

  // --------------------------------------------------------------- timeouts

  predicate TimedOut(cfg: Config, e: Entry, now: int) {
    || (e.phase.RequestEnqueued? && now >= e.lastAttempt + cfg.requestAckTimeout)
    || (e.phase.RequestAccepted? && now >= e.lastAttempt + cfg.snapshotTimeout)
  }

  function ExpireEntry(cfg: Config, e: Entry, now: int): Entry {
    if TimedOut(cfg, e, now) then AfterFailure(cfg, e, now) else e
  }

  function ExpireEntries(cfg: Config, entries: seq<Entry>, now: int): (r: seq<Entry>)
    ensures |r| == |entries|
    ensures forall i :: 0 <= i < |r| ==> r[i] == ExpireEntry(cfg, entries[i], now)
  {
    seq(|entries|, i requires 0 <= i < |entries| => ExpireEntry(cfg, entries[i], now))
  }

  function ExpireIncident(cfg: Config, inc: Incident, now: int): Incident {
    if exists i :: 0 <= i < |inc.entries| && TimedOut(cfg, inc.entries[i], now)
    then inc.(entries := ExpireEntries(cfg, inc.entries, now), lastProgress := now)
    else inc
  }

  function Expire(c: Coordinator, cfg: Config, now: int): Coordinator {
    c.(incidents := map r | r in c.incidents :: ExpireIncident(cfg, c.incidents[r], now))
  }

  // -------------------------------------------------------------- coherence

  /** Incident r still has work to do for the market. */
  predicate Pursues(c: Coordinator, r: nat, market: nat) {
    && r in c.incidents
    && (exists i :: 0 <= i < |c.incidents[r].entries| &&
          c.incidents[r].entries[i].market == market && Unfinished(c.incidents[r].entries[i]))
  }

  predicate IdsFresh(c: Coordinator) {
    && c.nextId < WORD
    && forall r :: r in c.incidents ==>
         && 0 < r && (c.nextId != 0 ==> r < c.nextId)
         && c.incidents[r].id == r
         && DistinctMarkets(c.incidents[r].entries)
  }

  predicate KeysMatch(c: Coordinator) {
    && (forall k :: k in c.bySource ==>
          c.bySource[k] in c.incidents &&
          k == SourceKey(c.incidents[c.bySource[k]].universe, c.incidents[c.bySource[k]].source))
    && (forall r :: r in c.incidents ==>
          var k := SourceKey(c.incidents[r].universe, c.incidents[r].source);
          k in c.bySource && c.bySource[k] == r)
  }

  /** A market is latched to a recovery exactly when that recovery pursues it. */
  ghost predicate LatchesMatch(c: Coordinator) {
    forall m: nat, r: nat :: Holds(c, m, r) <==> Pursues(c, r, m)
  }

  ghost predicate Coherent(c: Coordinator) {
    IdsFresh(c) && KeysMatch(c) && LatchesMatch(c)
  }

  /** Every latch belongs to an incident of the active universe. */
  predicate LatchesActive(c: Coordinator, version: nat) {
    forall m :: m in c.latch ==> c.latch[m] in c.incidents && c.incidents[c.latch[m]].universe == version
  }

  /** No market is unfinished in two incidents. */
  lemma OnePursuer(c: Coordinator, m: nat, r: nat, r': nat)
    requires LatchesMatch(c)
    requires Pursues(c, r, m) && Pursues(c, r', m)
    ensures r == r'
  {
    assert Holds(c, m, r) && Holds(c, m, r');
  }

  lemma {:induction false} FreshEntriesRouted(routes: seq<Route>, latch: map<nat, nat>, now: int, e: Entry)
    requires e in FreshEntries(routes, latch, now)
    ensures exists i :: 0 <= i < |routes| && routes[i].market == e.market
  {
    if routes[0].market in latch || e != NewEntry(routes[0], now) {
      FreshEntriesRouted(routes[1..], latch, now, e);
      var i :| 0 <= i < |routes[1..]| && routes[1..][i].market == e.market;
      assert routes[i + 1].market == e.market;
    }
  }

  /** A universe that routes each market once never makes a barrier observation throw. */
  lemma {:induction false} DistinctRoutesDistinctEntries(routes: seq<Route>, latch: map<nat, nat>, now: int)
    requires forall i, j :: 0 <= i < j < |routes| ==> routes[i].market != routes[j].market
    ensures DistinctMarkets(FreshEntries(routes, latch, now))
  {
    if routes != [] {
      var rest := FreshEntries(routes[1..], latch, now);
      DistinctRoutesDistinctEntries(routes[1..], latch, now);
      forall j | 0 <= j < |rest| ensures rest[j].market != routes[0].market {
        FreshEntriesRouted(routes[1..], latch, now, rest[j]);
      }
    }
  }

  /** Creating an incident for markets nobody holds keeps the latches coherent. */
  lemma CreateCoherent(c: Coordinator, key: SourceKey, sid: nat, reason: Reason, es: seq<Entry>, now: int, version: nat)
    requires Coherent(c) && c.nextId != 0
    requires key !in c.bySource
    requires DistinctMarkets(es)
    requires forall i :: 0 <= i < |es| ==> es[i].market !in c.latch && Unfinished(es[i])
    ensures Coherent(CreateIncident(c, key, sid, reason, es, now))
    ensures LatchesActive(c, version) && key.universe == version ==>
              LatchesActive(CreateIncident(c, key, sid, reason, es, now), version)
  {
    var c' := CreateIncident(c, key, sid, reason, es, now);
    var id := c.nextId;
    forall m: nat, r: nat ensures Holds(c', m, r) <==> Pursues(c', r, m) {
      assert Holds(c, m, r) <==> Pursues(c, r, m);
      assert Holds(c, m, id) <==> Pursues(c, id, m);
      if r != id {
        assert Pursues(c', r, m) <==> Pursues(c, r, m);
      } else {
        assert c'.incidents[id].entries == es;
        if m in Markets(es) {
          var i :| 0 <= i < |es| && es[i].market == m;
        }
      }
    }
  }

  /** Changing an entry without finishing it keeps coherence. */
  lemma ProgressCoherent(c: Coordinator, r: nat, i: nat, e: Entry, now: int, version: nat)
    requires Coherent(c)
    requires r in c.incidents && i < |c.incidents[r].entries|
    requires e.market == c.incidents[r].entries[i].market
    requires Unfinished(e) && Unfinished(c.incidents[r].entries[i])
    ensures Coherent(WithEntry(c, r, i, e, now))
    ensures LatchesActive(c, version) ==> LatchesActive(WithEntry(c, r, i, e, now), version)
  {
    var c' := WithEntry(c, r, i, e, now);
    forall m: nat, r': nat ensures Holds(c', m, r') <==> Pursues(c', r', m) {
      assert Holds(c, m, r') <==> Pursues(c, r', m);
      SamePursuit(c, c', r, r', m);
    }
  }

  lemma SamePursuit(c: Coordinator, c': Coordinator, r: nat, r': nat, m: nat)
    requires r in c.incidents && c'.incidents.Keys == c.incidents.Keys
    requires forall x :: x in c.incidents && x != r ==> c'.incidents[x] == c.incidents[x]
    requires |c'.incidents[r].entries| == |c.incidents[r].entries|
    requires forall k :: 0 <= k < |c.incidents[r].entries| ==>
               c'.incidents[r].entries[k].market == c.incidents[r].entries[k].market &&
               Unfinished(c'.incidents[r].entries[k]) == Unfinished(c.incidents[r].entries[k])
    ensures Pursues(c, r', m) <==> Pursues(c', r', m)
  {
    if r' in c.incidents {
      var es, es' := c.incidents[r'].entries, c'.incidents[r'].entries;
      forall k | 0 <= k < |es| ensures
        (es[k].market == m && Unfinished(es[k])) <==> (es'[k].market == m && Unfinished(es'[k])) {}
    }
  }

  /** Finishing an entry and dropping its latch keeps coherence. */
  lemma FinishCoherent(c: Coordinator, r: nat, i: nat, e: Entry, now: int, version: nat)
    requires Coherent(c)
    requires r in c.incidents && i < |c.incidents[r].entries|
    requires e.market == c.incidents[r].entries[i].market
    requires Finished(e.phase) && Unfinished(c.incidents[r].entries[i])
    ensures var c' := WithEntry(c, r, i, e, now).(latch := c.latch - {e.market});
            Coherent(c') && (LatchesActive(c, version) ==> LatchesActive(c', version))
  {
    var c' := WithEntry(c, r, i, e, now).(latch := c.latch - {e.market});
    var es, es' := c.incidents[r].entries, c'.incidents[r].entries;
    assert Pursues(c, r, e.market);
    forall m: nat, r': nat ensures Holds(c', m, r') <==> Pursues(c', r', m) {
      assert Holds(c, m, r') <==> Pursues(c, r', m);
      assert Holds(c, m, r) <==> Pursues(c, r, m);
      if r' == r {
        if k :| 0 <= k < |es| && es[k].market == m && Unfinished(es[k]) && m != e.market {
          assert es'[k] == es[k];
        }
        if k :| 0 <= k < |es'| && es'[k].market == m && Unfinished(es'[k]) {
          assert es'[k] == es[k];
        }
      } else {
        assert Pursues(c', r', m) <==> Pursues(c, r', m);
      }
    }
  }

  // ------------------------------------------- every operation is coherent

  lemma ObserveMarketCoherent(c: Coordinator, f: MarketFact, u: Universe, now: int)
    requires Coherent(c)
    ensures Coherent(ObserveMarket(c, f, u, now).0)
    ensures LatchesActive(c, u.version) ==> LatchesActive(ObserveMarket(c, f, u, now).0, u.version)
  {
    var v := JudgeMarket(c, f, u, now);
    if v.Create? {
      CreateCoherent(c, SourceKey(f.universe, f.incident), f.sid, f.reason, v.entries, now, u.version);
    }
  }

  predicate Routed(routes: seq<Route>, m: nat) { exists i :: 0 <= i < |routes| && routes[i].market == m }

  /** Every routed market is latched: as before, or to recovery `id`; and no other market is. */
  ghost predicate LatchesRest(latch: map<nat, nat>, latch': map<nat, nat>, routes: seq<Route>, id: nat) {
    && (forall m: nat :: m in latch' <==> m in latch || Routed(routes, m))
    && (forall m: nat :: m in latch' ==> latch'[m] == if m in latch then latch[m] else id)
  }

  lemma {:induction false} FreshExactly(routes: seq<Route>, latch: map<nat, nat>, now: int)
    ensures forall m: nat :: m in Markets(FreshEntries(routes, latch, now)) <==> m !in latch && Routed(routes, m)
  {
    if routes != [] {
      FreshExactly(routes[1..], latch, now);
      var rest := FreshEntries(routes[1..], latch, now);
      var es := FreshEntries(routes, latch, now);
      forall m: nat ensures m in Markets(es) <==> m !in latch && Routed(routes, m) {
        assert m in Markets(rest) <==> m !in latch && Routed(routes[1..], m);
        RoutedFirst(routes, m);
        MarketsFirst(routes[0], rest, latch, now, m);
      }
    }
  }

  lemma RoutedFirst(routes: seq<Route>, m: nat)
    requires routes != []
    ensures Routed(routes, m) <==> routes[0].market == m || Routed(routes[1..], m)
  {
    if i :| 0 <= i < |routes| && routes[i].market == m && i > 0 { assert routes[1..][i - 1].market == m; }
    if i :| 0 <= i < |routes[1..]| && routes[1..][i].market == m { assert routes[i + 1].market == m; }
  }

  lemma MarketsFirst(r: Route, rest: seq<Entry>, latch: map<nat, nat>, now: int, m: nat)
    ensures m in Markets((if r.market in latch then [] else [NewEntry(r, now)]) + rest) <==>
            m in Markets(rest) || (r.market == m && m !in latch)
  {
    var first := if r.market in latch then [] else [NewEntry(r, now)];
    var es := first + rest;
    if i :| 0 <= i < |rest| && rest[i].market == m { assert es[|first| + i].market == m; }
    if i :| 0 <= i < |es| && es[i].market == m && i >= |first| { assert rest[i - |first|].market == m; }
    if r.market == m && m !in latch { assert es[0].market == m; }
  }

  /** With duplicate routes the creation throws instead, so only distinct entries are committed. */
  lemma ObserveBarrierCoherent(c: Coordinator, f: BarrierFact, u: Universe, now: int)
    requires Coherent(c)
    requires JudgeBarrier(c, f, u, now).Create? ==> DistinctMarkets(JudgeBarrier(c, f, u, now).entries)
    ensures Coherent(ObserveBarrier(c, f, u, now).0)
    ensures LatchesActive(c, u.version) ==> LatchesActive(ObserveBarrier(c, f, u, now).0, u.version)
    ensures var (c', o) := ObserveBarrier(c, f, u, now);
            if o.code.Created? then LatchesRest(c.latch, c'.latch, u.routes, c.nextId) else c'.latch == c.latch
  {
    var v := JudgeBarrier(c, f, u, now);
    if v.Create? {
      FreshExactly(u.routes, c.latch, now);
      CreateCoherent(c, SourceKey(f.universe, f.incident), f.sid, f.reason, v.entries, now, u.version);
    }
  }

  lemma MarkCoherent(c: Coordinator, cmd: Command, now: int, version: nat)
    requires Coherent(c)
    ensures Coherent(MarkEnqueued(c, cmd, now).0)
    ensures LatchesActive(c, version) ==> LatchesActive(MarkEnqueued(c, cmd, now).0, version)
  {
    if MarkEnqueued(c, cmd, now).1 {
      var at := Locate(c, cmd.recovery, cmd.universe, cmd.market);
      var e := c.incidents[cmd.recovery].entries[at.value];
      ProgressCoherent(c, cmd.recovery, at.value,
                       e.(attempts := cmd.attempt, phase := RequestEnqueued, lastAttempt := now), now, version);
    }
  }

  lemma AcceptedCoherent(c: Coordinator, f: RequestFact, now: int, version: nat)
    requires Coherent(c)
    ensures Coherent(HandleAccepted(c, f, now).0)
    ensures LatchesActive(c, version) ==> LatchesActive(HandleAccepted(c, f, now).0, version)
  {
    if HandleAccepted(c, f, now).1.disposition.Applied? {
      var at := Locate(c, f.recovery, f.universe, f.market);
      var e := c.incidents[f.recovery].entries[at.value];
      ProgressCoherent(c, f.recovery, at.value, e.(phase := RequestAccepted, lastAttempt := now), now, version);
    }
  }

  lemma FailedCoherent(c: Coordinator, cfg: Config, f: RequestFact, now: int, version: nat)
    requires Coherent(c)
    ensures Coherent(HandleFailed(c, cfg, f, now).0)
    ensures LatchesActive(c, version) ==> LatchesActive(HandleFailed(c, cfg, f, now).0, version)
  {
    if HandleFailed(c, cfg, f, now).1.disposition.Applied? {
      var at := Locate(c, f.recovery, f.universe, f.market);
      var e := c.incidents[f.recovery].entries[at.value];
      ProgressCoherent(c, f.recovery, at.value, AfterFailure(cfg, e, now), now, version);
    }
  }

  lemma AppliedCoherent(c: Coordinator, f: AppliedFact, u: Universe, now: int, version: nat)
    requires Coherent(c)
    ensures Coherent(HandleApplied(c, f, u, now).0)
    ensures LatchesActive(c, version) ==> LatchesActive(HandleApplied(c, f, u, now).0, version)
    ensures var (c', r) := HandleApplied(c, f, u, now);
            if r.disposition.Applied? then Holds(c, f.market, f.recovery) && c'.latch == c.latch - {f.market}
            else c' == c
  {
    if HandleApplied(c, f, u, now).1.disposition.Applied? {
      var at := Locate(c, f.recovery, f.universe, f.market);
      var e := c.incidents[f.recovery].entries[at.value];
      FinishCoherent(c, f.recovery, at.value, e.(phase := SnapshotApplied), now, version);
    }
  }

  lemma ExpireCoherent(c: Coordinator, cfg: Config, now: int, version: nat)
    requires Coherent(c)
    ensures Coherent(Expire(c, cfg, now))
    ensures LatchesActive(c, version) ==> LatchesActive(Expire(c, cfg, now), version)
  {
    var c' := Expire(c, cfg, now);
    forall r | r in c.incidents ensures
      && |c'.incidents[r].entries| == |c.incidents[r].entries|
      && forall k :: 0 <= k < |c.incidents[r].entries| ==>
           c'.incidents[r].entries[k] == ExpireEntry(cfg, c.incidents[r].entries[k], now)
    {}
    forall m: nat, r: nat ensures Holds(c', m, r) <==> Pursues(c', r, m) {
      assert Holds(c, m, r) <==> Pursues(c, r, m);
      if r in c.incidents {
        var es, es' := c.incidents[r].entries, c'.incidents[r].entries;
        forall k | 0 <= k < |es| ensures
          (es[k].market == m && Unfinished(es[k])) <==> (es'[k].market == m && Unfinished(es'[k])) {}
      }
    }
    assert KeysMatch(c');
  }

  /** Superseding leaves no latch of another universe and stays coherent. */
  lemma SupersedeCoherent(c: Coordinator, version: nat, now: int)
    requires Coherent(c) && version != 0
    ensures Coherent(Supersede(c, version, now))
    ensures LatchesActive(Supersede(c, version, now), version)
  {
    var c' := Supersede(c, version, now);
    forall m: nat, r: nat ensures Holds(c', m, r) <==> Pursues(c', r, m) {
      assert Holds(c, m, r) <==> Pursues(c, r, m);
      if r in c.incidents {
        if c.incidents[r].universe == version {
          assert c'.incidents[r] == c.incidents[r];
        } else {
          SupersededIsFinished(c.incidents[r], version, now);
        }
      }
    }
    forall r | r in c.incidents ensures DistinctMarkets(c'.incidents[r].entries) {
      SupersededIsFinished(c.incidents[r], version, now);
    }
    assert KeysMatch(c');
  }

  lemma SupersededIsFinished(inc: Incident, version: nat, now: int)
    ensures var inc' := SupersedeIncident(inc, version, now);
            && |inc'.entries| == |inc.entries|
            && (forall k :: 0 <= k < |inc.entries| ==> inc'.entries[k].market == inc.entries[k].market)
            && (inc.universe != version ==> !HasUnfinished(inc'.entries))
  {
  }

  /** A (universe, incident) key that has a recovery never gets another one. */
  lemma KeyCreatesOnce(c: Coordinator, f: MarketFact, g: BarrierFact, u: Universe, now: int)
    requires Coherent(c)
    ensures SourceKey(f.universe, f.incident) in c.bySource ==> ObserveMarket(c, f, u, now).0 == c
    ensures SourceKey(g.universe, g.incident) in c.bySource ==> ObserveBarrier(c, g, u, now).0 == c
    ensures forall k :: k in c.bySource ==>
              && k in ObserveMarket(c, f, u, now).0.bySource
              && ObserveMarket(c, f, u, now).0.bySource[k] == c.bySource[k]
              && k in ObserveBarrier(c, g, u, now).0.bySource
              && ObserveBarrier(c, g, u, now).0.bySource[k] == c.bySource[k]
  {
  }
}
