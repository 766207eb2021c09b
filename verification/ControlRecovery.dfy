/** The control-plane side of recovery (cpp/src/control/control_plane.cpp): which coordinator
    operation each incoming message runs, the telemetry it is accounted under, and the
    conservation laws that telemetry obeys over every run. */
module ControlRecovery {
  import opened Wrappers
  import opened Sums
  import opened Recovery
  import opened RecoveryProgress
  import opened RecoveryCommands

  datatype Telemetry = Telemetry(
    incidentsCreated: int, incidentsDeduplicated: int, marketsAlreadyRecovering: int,
    observationsRejected: int, marketsScheduled: int,
    requestsEnqueued: int, requestEnqueueFailures: int, requestsAccepted: int, requestFailures: int,
    requestAckTimeouts: int, snapshotTimeouts: int, retriesScheduled: int, marketsFailed: int,
    marketsRecovered: int, incidentsCompleted: int, incidentsSuperseded: int, marketsSuperseded: int)

  const NoTelemetry := Telemetry(0, 0, 0, 0, 0, 0, 0, 0, 0, 0, 0, 0, 0, 0, 0, 0, 0)

  datatype Plane = Plane(coord: Coordinator, universe: Option<Universe>, nextVersion: nat,
                         stats: Telemetry, faulted: bool)

  const InitialPlane := Plane(Empty, None, 1, NoTelemetry, false)
  const MAX_COMMANDS_PER_PUMP: nat := 64

  // ------------------------------------------------------------- accounting

  function AccountObservation(t: Telemetry, o: Observation): Telemetry {
    match o.code
    case Created => t.(incidentsCreated := t.incidentsCreated + 1, marketsScheduled := t.marketsScheduled + o.affected)
    case Duplicate => t.(incidentsDeduplicated := t.incidentsDeduplicated + 1)
    case AlreadyRecovering => t.(marketsAlreadyRecovering := t.marketsAlreadyRecovering + 1)
    case _ => t.(observationsRejected := t.observationsRejected + 1)
  }

  function AccountFact(t: Telemetry, r: FactResult): Telemetry {
    if !r.disposition.Applied? then t
    else
      var t1 := match r.effect
        case AcceptedEffect => t.(requestsAccepted := t.requestsAccepted + 1)
        case RetryScheduled => t.(requestFailures := t.requestFailures + 1, retriesScheduled := t.retriesScheduled + 1)
        case MarketRecovered => t.(marketsRecovered := t.marketsRecovered + 1)
        case MarketFailed => t.(requestFailures := t.requestFailures + 1, marketsFailed := t.marketsFailed + 1)
        case NoEffect => t;
      if r.completed then t1.(incidentsCompleted := t1.incidentsCompleted + 1) else t1
  }

  // ------------------------------------------------------------ quantities

  function One(e: Entry): int { if Unfinished(e) then 1 else 0 }
  function Attempts(e: Entry): int { e.attempts }
  function UnfinishedIn(inc: Incident): int { SeqSum(inc.entries, One) }

  /** Markets and incidents a switch to `version` supersedes. */
  function SupersededIn(version: nat): Incident -> int {
    (inc: Incident) => if inc.universe == version then 0 else UnfinishedIn(inc)
  }
  function SupersededOnce(version: nat): Incident -> int {
    (inc: Incident) => if inc.universe != version && HasUnfinished(inc.entries) then 1 else 0
  }

  /** What one expired entry counts as. */
  function AckExpired(cfg: Config, now: int): Entry -> int {
    (e: Entry) => if e.phase.RequestEnqueued? && TimedOut(cfg, e, now) then 1 else 0
  }
  function SnapshotExpired(cfg: Config, now: int): Entry -> int {
    (e: Entry) => if e.phase.RequestAccepted? && TimedOut(cfg, e, now) then 1 else 0
  }
  function RetryAfter(cfg: Config, now: int): Entry -> int {
    (e: Entry) => if TimedOut(cfg, e, now) && e.attempts < cfg.maxAttempts then 1 else 0
  }
  function FailureAfter(cfg: Config, now: int): Entry -> int {
    (e: Entry) => if TimedOut(cfg, e, now) && e.attempts >= cfg.maxAttempts then 1 else 0
  }
  function Over(f: Entry -> int): Incident -> int {
    (inc: Incident) => SeqSum(inc.entries, f)
  }

  ghost function Count(c: Coordinator, f: Entry -> int): int {
    Sum(c.incidents, Over(f))
  }

  // ------------------------------------------------------------------ steps

  datatype Event =
    | Install(routes: seq<Route>)
    | BarrierArrives(barrier: BarrierFact, barrierThrows: bool)
    | MarketArrives(market: MarketFact, marketThrows: bool)
    | AcceptedArrives(accepted: RequestFact)
    | FailedArrives(failed: RequestFact)
    | AppliedArrives(applied: AppliedFact)
    | Pump(ioReady: bool, batch: seq<Command>, pushes: nat)

  ghost function InstallUniverse(p: Plane, routes: seq<Route>, now: int): Plane {
    var v := p.nextVersion;
    p.(coord := Supersede(p.coord, v, now),
       universe := Some(Universe(v, routes)),
       nextVersion := v + 1,
       stats := p.stats.(
         incidentsSuperseded := p.stats.incidentsSuperseded + Sum(p.coord.incidents, SupersededOnce(v)),
         marketsSuperseded := p.stats.marketsSuperseded + Sum(p.coord.incidents, SupersededIn(v))))
  }

  function OnBarrier(p: Plane, f: BarrierFact, throws: bool, now: int): Plane {
    if p.universe.None? then
      p.(stats := p.stats.(observationsRejected := p.stats.observationsRejected + 1))
    else if throws then
      p.(stats := p.stats.(observationsRejected := p.stats.observationsRejected + 1), faulted := true)
    else
      var (c, o) := ObserveBarrier(p.coord, f, p.universe.value, now);
      p.(coord := c, stats := AccountObservation(p.stats, o))
  }

  function OnMarket(p: Plane, f: MarketFact, throws: bool, now: int): Plane {
    if p.universe.None? then p
    else if throws then
      p.(stats := p.stats.(observationsRejected := p.stats.observationsRejected + 1), faulted := true)
    else
      var (c, o) := ObserveMarket(p.coord, f, p.universe.value, now);
      p.(coord := c, stats := AccountObservation(p.stats, o))
  }

  function OnApplied(p: Plane, f: AppliedFact, now: int): Plane {
    if p.universe.None? then p
    else
      var (c, r) := HandleApplied(p.coord, f, p.universe.value, now);
      p.(coord := c, stats := AccountFact(p.stats, r))
  }

  ghost function ExpireAll(p: Plane, cfg: Config, now: int): Plane {
    p.(coord := Expire(p.coord, cfg, now),
       stats := p.stats.(
         requestAckTimeouts := p.stats.requestAckTimeouts + Count(p.coord, AckExpired(cfg, now)),
         snapshotTimeouts := p.stats.snapshotTimeouts + Count(p.coord, SnapshotExpired(cfg, now)),
         retriesScheduled := p.stats.retriesScheduled + Count(p.coord, RetryAfter(cfg, now)),
         marketsFailed := p.stats.marketsFailed + Count(p.coord, FailureAfter(cfg, now))))
  }

  /** The push-and-mark loop over the first `pushes` commands; a refused push ends it. */
  function SendBatch(p: Plane, batch: seq<Command>, pushes: nat, now: int): Plane
    decreases |batch|
  {
    if batch == [] then p
    else if pushes == 0 then
      p.(stats := p.stats.(requestEnqueueFailures := p.stats.requestEnqueueFailures + 1))
    else
      var (c, ok) := MarkEnqueued(p.coord, batch[0], now);
      if !ok then p.(faulted := true)
      else SendBatch(p.(coord := c, stats := p.stats.(requestsEnqueued := p.stats.requestsEnqueued + 1)),
                     batch[1..], pushes - 1, now)
  }

  ghost function PumpRecovery(p: Plane, cfg: Config, ioReady: bool, batch: seq<Command>, pushes: nat, now: int): Plane {
    if p.faulted || p.universe.None? then p
    else if !ioReady then ExpireAll(p, cfg, now)
    else SendBatch(ExpireAll(p, cfg, now), batch, pushes, now)
  }

  ghost predicate Enabled(p: Plane, cfg: Config, ev: Event, now: int) {
    match ev
    case BarrierArrives(f, throws) =>
      p.universe.Some? && !throws && JudgeBarrier(p.coord, f, p.universe.value, now).Create? ==>
        DistinctMarkets(JudgeBarrier(p.coord, f, p.universe.value, now).entries)
    case Pump(_, batch, _) => IsBatch(Expire(p.coord, cfg, now), now, MAX_COMMANDS_PER_PUMP, batch)
    case _ => true
  }

  ghost function Step(p: Plane, cfg: Config, ev: Event, now: int): Plane {
    match ev
    case Install(routes) => InstallUniverse(p, routes, now)
    case BarrierArrives(f, throws) => OnBarrier(p, f, throws, now)
    case MarketArrives(f, throws) => OnMarket(p, f, throws, now)
    case AcceptedArrives(f) =>
      p.(coord := HandleAccepted(p.coord, f, now).0, stats := AccountFact(p.stats, HandleAccepted(p.coord, f, now).1))
    case FailedArrives(f) =>
      p.(coord := HandleFailed(p.coord, cfg, f, now).0,
         stats := AccountFact(p.stats, HandleFailed(p.coord, cfg, f, now).1))
    case AppliedArrives(f) => OnApplied(p, f, now)
    case Pump(ioReady, batch, pushes) => PumpRecovery(p, cfg, ioReady, batch, pushes, now)
  }

  // -------------------------------------------------------------- invariant

  /** The conservation laws. */
  ghost predicate Conserved(p: Plane) {
    && p.stats.marketsScheduled == p.stats.marketsRecovered + p.stats.marketsSuperseded + |p.coord.latch|
    && p.stats.requestsEnqueued == Count(p.coord, Attempts)
    && p.stats.incidentsCreated == |p.coord.incidents|
  }

  ghost predicate LatchesOk(c: Coordinator, universe: Option<Universe>) {
    match universe
    case None => c.latch == map[]
    case Some(u) => LatchesActive(c, u.version)
  }

  ghost predicate CoordOk(c: Coordinator, cfg: Config, universe: Option<Universe>) {
    Coherent(c) && Bounded(cfg, c) && LatchesOk(c, universe)
  }

  predicate VersionsOk(p: Plane) {
    p.nextVersion > 0 && (p.universe.Some? ==> 0 < p.universe.value.version < p.nextVersion)
  }

  ghost predicate PlaneInv(p: Plane, cfg: Config) {
    CoordOk(p.coord, cfg, p.universe) && VersionsOk(p) && Conserved(p)
  }

  // ------------------------------------------------ latches are countable

  /** The latch table of a set of incidents, stripped of everything else. */
  ghost predicate Matches(incidents: map<nat, Incident>, latch: map<nat, nat>) {
    && (forall r :: r in incidents ==> DistinctMarkets(incidents[r].entries))
    && forall m: nat, r: nat :: (m in latch && latch[m] == r) <==> (r in incidents && PursuedIn(incidents[r], m))
  }

  ghost predicate PursuedIn(inc: Incident, m: nat) {
    exists i :: 0 <= i < |inc.entries| && inc.entries[i].market == m && Unfinished(inc.entries[i])
  }

  function OpenMarkets(es: seq<Entry>): set<nat> {
    set i | 0 <= i < |es| && Unfinished(es[i]) :: es[i].market
  }

  lemma {:induction false} OpenMarketsCount(es: seq<Entry>)
    requires DistinctMarkets(es)
    ensures |OpenMarkets(es)| == SeqSum(es, One)
  {
    if es != [] {
      OpenMarketsCount(es[1..]);
      var rest := OpenMarkets(es[1..]);
      forall m | m in rest ensures m != es[0].market && m in OpenMarkets(es) {
        var i :| 0 <= i < |es[1..]| && Unfinished(es[1..][i]) && es[1..][i].market == m;
        assert es[i + 1].market == m;
      }
      forall m | m in OpenMarkets(es) && m != es[0].market ensures m in rest {
        var i :| 0 <= i < |es| && Unfinished(es[i]) && es[i].market == m;
        assert es[1..][i - 1].market == m;
      }
      assert OpenMarkets(es) == if Unfinished(es[0]) then rest + {es[0].market} else rest;
    }
  }

  lemma OpenIsPursued(inc: Incident, m: nat)
    ensures m in OpenMarkets(inc.entries) <==> PursuedIn(inc, m)
  {
  }

  /** Taking an incident away with its latches leaves a matching table. */
  lemma MatchesWithout(incidents: map<nat, Incident>, latch: map<nat, nat>, r: nat)
    requires Matches(incidents, latch) && r in incidents
    ensures forall m :: m in OpenMarkets(incidents[r].entries) <==> m in latch && latch[m] == r
    ensures Matches(incidents - {r}, latch - OpenMarkets(incidents[r].entries))
  {
    forall m: nat ensures m in OpenMarkets(incidents[r].entries) <==> PursuedIn(incidents[r], m) {
      OpenIsPursued(incidents[r], m);
    }
  }

  lemma {:induction false} LatchCountMatches(incidents: map<nat, Incident>, latch: map<nat, nat>)
    requires Matches(incidents, latch)
    ensures |latch| == Sum(incidents, Over(One))
    decreases |incidents|
  {
    if |incidents| == 0 {
      NoIncidentNoLatch(incidents, latch);
    } else {
      var r := Pick(incidents);
      var open := OpenMarkets(incidents[r].entries);
      assert Matches(incidents - {r}, latch - open) && |latch| == |latch - open| + |open| by {
        MatchesWithout(incidents, latch, r);
        CardinalityWithout(latch, open);
      }
      assert |open| == Over(One)(incidents[r]) by {
        OpenMarketsCount(incidents[r].entries);
      }
      LatchCountMatches(incidents - {r}, latch - open);
    }
  }

  lemma NoIncidentNoLatch(incidents: map<nat, Incident>, latch: map<nat, nat>)
    requires Matches(incidents, latch) && |incidents| == 0
    ensures |latch| == 0
  {
    assert incidents.Keys == {};
    forall m | m in latch ensures latch[m] in incidents {}
    assert latch.Keys == {};
  }

  lemma CardinalityWithout(m: map<nat, nat>, s: set<nat>)
    requires s <= m.Keys
    ensures |m| == |m - s| + |s|
  {
    assert m.Keys == (m - s).Keys + s;
  }

  /** In a coherent state there is one latch per unfinished entry. */
  lemma LatchCount(c: Coordinator)
    requires Coherent(c)
    ensures |c.latch| == Count(c, One)
  {
    forall m: nat, r: nat ensures
      (m in c.latch && c.latch[m] == r) <==> (r in c.incidents && PursuedIn(c.incidents[r], m))
    {
      assert Holds(c, m, r) <==> Pursues(c, r, m);
    }
    LatchCountMatches(c.incidents, c.latch);
  }

  // --------------------------------------------- what operations do to counts

  lemma EntryCounts(c: Coordinator, r: nat, i: nat, e: Entry, now: int, f: Entry -> int)
    requires r in c.incidents && i < |c.incidents[r].entries|
    ensures Count(WithEntry(c, r, i, e, now), f) == Count(c, f) + f(e) - f(c.incidents[r].entries[i])
    ensures |WithEntry(c, r, i, e, now).incidents| == |c.incidents|
  {
    var inc := c.incidents[r];
    var inc' := inc.(entries := inc.entries[i := e], lastProgress := now);
    SumUpdate(c.incidents, r, inc', Over(f));
    SeqSumUpdate(inc.entries, i, e, f);
    assert c.incidents[r := inc'].Keys == c.incidents.Keys;
  }

  lemma {:induction false} ConstantSum(es: seq<Entry>, f: Entry -> int, k: int)
    requires forall i :: 0 <= i < |es| ==> f(es[i]) == k
    ensures SeqSum(es, f) == k * |es|
  {
    if es != [] {
      ConstantSum(es[1..], f, k);
      assert k * |es| == k + k * |es[1..]|;
    }
  }

  lemma CreateCounts(c: Coordinator, key: SourceKey, sid: nat, reason: Reason, es: seq<Entry>, now: int)
    requires Coherent(c) && c.nextId != 0
    requires forall i :: 0 <= i < |es| ==> Unfinished(es[i]) && es[i].attempts == 0
    ensures var c' := CreateIncident(c, key, sid, reason, es, now);
            && Count(c', One) == Count(c, One) + |es|
            && Count(c', Attempts) == Count(c, Attempts)
            && |c'.incidents| == |c.incidents| + 1
  {
    var inc := MakeIncident(c.nextId, key, sid, reason, es, now);
    assert c.nextId !in c.incidents;
    SumUpdate(c.incidents, c.nextId, inc, Over(One));
    SumUpdate(c.incidents, c.nextId, inc, Over(Attempts));
    ConstantSum(es, One, 1);
    ConstantSum(es, Attempts, 0);
    assert c.incidents[c.nextId := inc].Keys == c.incidents.Keys + {c.nextId};
  }

  lemma ExpireCounts(c: Coordinator, cfg: Config, now: int, f: Entry -> int)
    requires forall e: Entry :: f(ExpireEntry(cfg, e, now)) == f(e)
    ensures Count(Expire(c, cfg, now), f) == Count(c, f)
    ensures |Expire(c, cfg, now).incidents| == |c.incidents|
  {
    var c' := Expire(c, cfg, now);
    forall r | r in c.incidents ensures Over(f)(c.incidents[r]) == Over(f)(c'.incidents[r]) {
      SeqSumSame(c.incidents[r].entries, c'.incidents[r].entries, f, f);
    }
    assert c'.incidents.Keys == c.incidents.Keys;
    SumSame(c.incidents, c'.incidents, Over(f), Over(f));
  }

  lemma SupersedeIncidentCounts(inc: Incident, version: nat, now: int)
    ensures Over(One)(inc) == Over(One)(SupersedeIncident(inc, version, now)) + SupersededIn(version)(inc)
    ensures Over(Attempts)(inc) == Over(Attempts)(SupersedeIncident(inc, version, now))
  {
    var inc' := SupersedeIncident(inc, version, now);
    SeqSumSame(inc.entries, inc'.entries, Attempts, Attempts);
    if inc.universe != version {
      SupersededIsFinished(inc, version, now);
      ConstantSum(inc'.entries, One, 0);
    }
  }

  function OneAfter(version: nat, now: int): Incident -> int {
    (inc: Incident) => Over(One)(SupersedeIncident(inc, version, now))
  }

  /** Superseding accounts for every unfinished entry it closes. */
  lemma SupersedeCounts(c: Coordinator, version: nat, now: int)
    requires version != 0
    ensures Count(c, One) == Count(Supersede(c, version, now), One) + Sum(c.incidents, SupersededIn(version))
    ensures Count(c, Attempts) == Count(Supersede(c, version, now), Attempts)
    ensures |Supersede(c, version, now).incidents| == |c.incidents|
  {
    var c' := Supersede(c, version, now);
    assert c'.incidents.Keys == c.incidents.Keys;
    forall r | r in c.incidents ensures
      && Over(One)(c.incidents[r]) == OneAfter(version, now)(c.incidents[r]) + SupersededIn(version)(c.incidents[r])
      && Over(One)(c'.incidents[r]) == OneAfter(version, now)(c.incidents[r])
      && Over(Attempts)(c.incidents[r]) == Over(Attempts)(c'.incidents[r])
    {
      SupersedeIncidentCounts(c.incidents[r], version, now);
    }
    SupersedeSums(c.incidents, c'.incidents, version, now);
  }

  lemma SupersedeSums(m: map<nat, Incident>, m': map<nat, Incident>, version: nat, now: int)
    requires m.Keys == m'.Keys
    requires forall r :: r in m ==>
      && Over(One)(m[r]) == OneAfter(version, now)(m[r]) + SupersededIn(version)(m[r])
      && Over(One)(m'[r]) == OneAfter(version, now)(m[r])
      && Over(Attempts)(m[r]) == Over(Attempts)(m'[r])
    ensures Sum(m, Over(One)) == Sum(m', Over(One)) + Sum(m, SupersededIn(version))
    ensures Sum(m, Over(Attempts)) == Sum(m', Over(Attempts))
  {
    hide Over, OneAfter, SupersededIn;
    SumAdds(m, OneAfter(version, now), SupersededIn(version), Over(One));
    SumSame(m, m', OneAfter(version, now), Over(One));
    SumSame(m, m', Over(Attempts), Over(Attempts));
  }

  /** Every timeout either schedules a retry or fails the market. */
  lemma TimeoutsBalance(c: Coordinator, cfg: Config, now: int)
    ensures Count(c, AckExpired(cfg, now)) + Count(c, SnapshotExpired(cfg, now))
            == Count(c, RetryAfter(cfg, now)) + Count(c, FailureAfter(cfg, now))
  {
    var a, b, x, y := AckExpired(cfg, now), SnapshotExpired(cfg, now), RetryAfter(cfg, now), FailureAfter(cfg, now);
    forall r | r in c.incidents ensures
      Over(a)(c.incidents[r]) + Over(b)(c.incidents[r]) == Over(x)(c.incidents[r]) + Over(y)(c.incidents[r])
    {
      EntryTimeoutsBalance(c.incidents[r].entries, cfg, now);
    }
    SumsBalance(c.incidents, Over(a), Over(b), Over(x), Over(y));
  }

  lemma {:induction false} SumsBalance(m: map<nat, Incident>, a: Incident -> int, b: Incident -> int,
                                       x: Incident -> int, y: Incident -> int)
    requires forall r :: r in m ==> a(m[r]) + b(m[r]) == x(m[r]) + y(m[r])
    ensures Sum(m, a) + Sum(m, b) == Sum(m, x) + Sum(m, y)
    decreases |m|
  {
    if |m| > 0 { SumsBalance(m - {Pick(m)}, a, b, x, y); }
  }

  lemma {:induction false} EntryTimeoutsBalance(es: seq<Entry>, cfg: Config, now: int)
    ensures SeqSum(es, AckExpired(cfg, now)) + SeqSum(es, SnapshotExpired(cfg, now))
            == SeqSum(es, RetryAfter(cfg, now)) + SeqSum(es, FailureAfter(cfg, now))
  {
    if es != [] { EntryTimeoutsBalance(es[1..], cfg, now); }
  }

  // ------------------------------------------------------ every step conserves

  lemma InitialPlaneInv(cfg: Config)
    ensures PlaneInv(InitialPlane, cfg)
  {
  }

  /** One coordinator operation under the active universe. */
  lemma OpOk(c: Coordinator, cfg: Config, universe: Option<Universe>, op: Op, now: int)
    requires CoordOk(c, cfg, universe)
    requires op.OpMark? || op.OpAccepted? || op.OpFailed? || op.OpExpire?
    ensures CoordOk(Do(cfg, c, op, now), cfg, universe)
  {
    var version := if universe.Some? then universe.value.version else 0;
    assert Bounded(cfg, Do(cfg, c, op, now)) by { OpBounded(cfg, c, op, now); }
    hide Coherent, Bounded, LatchesActive, MarkEnqueued, HandleAccepted, HandleFailed, Expire;
    match op
    case OpMark(cmd) => MarkCoherent(c, cmd, now, version); LatchesUntouched(c, cfg, op, now);
    case OpAccepted(f) => AcceptedCoherent(c, f, now, version); LatchesUntouched(c, cfg, op, now);
    case OpFailed(f) => FailedCoherent(c, cfg, f, now, version); LatchesUntouched(c, cfg, op, now);
    case OpExpire => ExpireCoherent(c, cfg, now, version); LatchesUntouched(c, cfg, op, now);
  }

  lemma LatchesUntouched(c: Coordinator, cfg: Config, op: Op, now: int)
    requires op.OpMark? || op.OpAccepted? || op.OpFailed? || op.OpExpire?
    ensures Do(cfg, c, op, now).latch == c.latch
  {
  }

  lemma InstallOk(c: Coordinator, cfg: Config, routes: seq<Route>, version: nat, now: int)
    requires Coherent(c) && Bounded(cfg, c) && version != 0
    ensures CoordOk(Supersede(c, version, now), cfg, Some(Universe(version, routes)))
  {
    assert Bounded(cfg, Supersede(c, version, now)) by { OpBounded(cfg, c, OpSupersede(version), now); }
    hide Coherent, Bounded, LatchesActive, Supersede;
    SupersedeCoherent(c, version, now);
  }

  lemma InstallInv(p: Plane, cfg: Config, routes: seq<Route>, now: int)
    requires PlaneInv(p, cfg)
    ensures PlaneInv(InstallUniverse(p, routes, now), cfg)
  {
    hide Coherent, Bounded, LatchesOk, Count, Supersede;
    var p' := InstallUniverse(p, routes, now);
    InstallOk(p.coord, cfg, routes, p.nextVersion, now);
    SupersedeCounts(p.coord, p.nextVersion, now);
    LatchCount(p.coord);
    LatchCount(p'.coord);
  }

  /** A committed creation schedules, and latches, one market per entry. */
  lemma CreateConserves(p: Plane, p': Plane, key: SourceKey, sid: nat, reason: Reason, es: seq<Entry>, now: int)
    requires Coherent(p.coord) && p.coord.nextId != 0 && Conserved(p)
    requires forall i :: 0 <= i < |es| ==> Unfinished(es[i]) && es[i].attempts == 0
    requires p'.coord == CreateIncident(p.coord, key, sid, reason, es, now) && Coherent(p'.coord)
    requires p'.stats == AccountObservation(p.stats, Observation(Created, p.coord.nextId, |es|))
    ensures Conserved(p')
  {
    hide Count, CreateIncident;
    CreateCounts(p.coord, key, sid, reason, es, now);
    hide Coherent;
    LatchCount(p.coord);
    LatchCount(p'.coord);
  }

  lemma ObserveBarrierOk(c: Coordinator, cfg: Config, f: BarrierFact, u: Universe, now: int)
    requires CoordOk(c, cfg, Some(u))
    requires JudgeBarrier(c, f, u, now).Create? ==> DistinctMarkets(JudgeBarrier(c, f, u, now).entries)
    ensures CoordOk(ObserveBarrier(c, f, u, now).0, cfg, Some(u))
  {
    assert Bounded(cfg, ObserveBarrier(c, f, u, now).0) by { OpBounded(cfg, c, OpObserveBarrier(f, u), now); }
    hide Coherent, Bounded, LatchesActive, ObserveBarrier, JudgeBarrier;
    ObserveBarrierCoherent(c, f, u, now);
  }

  lemma ObserveMarketOk(c: Coordinator, cfg: Config, f: MarketFact, u: Universe, now: int)
    requires CoordOk(c, cfg, Some(u))
    ensures CoordOk(ObserveMarket(c, f, u, now).0, cfg, Some(u))
  {
    assert Bounded(cfg, ObserveMarket(c, f, u, now).0) by { OpBounded(cfg, c, OpObserveMarket(f, u), now); }
    hide Coherent, Bounded, LatchesActive, ObserveMarket, JudgeMarket;
    ObserveMarketCoherent(c, f, u, now);
  }

  lemma BarrierInv(p: Plane, cfg: Config, f: BarrierFact, throws: bool, now: int)
    requires PlaneInv(p, cfg) && Enabled(p, cfg, BarrierArrives(f, throws), now)
    ensures PlaneInv(OnBarrier(p, f, throws, now), cfg)
  {
    hide Coherent, Bounded, LatchesOk, Count, CreateIncident, IsBatch;
    if p.universe.Some? && !throws {
      var u := p.universe.value;
      var p' := OnBarrier(p, f, throws, now);
      var v := JudgeBarrier(p.coord, f, u, now);
      ObserveBarrierOk(p.coord, cfg, f, u, now);
      if v.Create? {
        CreateConserves(p, p', SourceKey(f.universe, f.incident), f.sid, f.reason, v.entries, now);
      }
    }
  }

  lemma MarketInv(p: Plane, cfg: Config, f: MarketFact, throws: bool, now: int)
    requires PlaneInv(p, cfg)
    ensures PlaneInv(OnMarket(p, f, throws, now), cfg)
  {
    hide Coherent, Bounded, LatchesOk, Count, CreateIncident;
    if p.universe.Some? && !throws {
      var u := p.universe.value;
      var p' := OnMarket(p, f, throws, now);
      var v := JudgeMarket(p.coord, f, u, now);
      ObserveMarketOk(p.coord, cfg, f, u, now);
      if v.Create? {
        CreateConserves(p, p', SourceKey(f.universe, f.incident), f.sid, f.reason, v.entries, now);
      }
    }
  }

  /** Facts that move an entry without finishing it change no conserved quantity. */
  lemma AcceptedCounts(c: Coordinator, f: RequestFact, now: int)
    ensures var c' := HandleAccepted(c, f, now).0;
            Count(c', Attempts) == Count(c, Attempts) && |c'.incidents| == |c.incidents| && c'.latch == c.latch
  {
    if HandleAccepted(c, f, now).1.disposition.Applied? {
      var at := Locate(c, f.recovery, f.universe, f.market);
      var e := c.incidents[f.recovery].entries[at.value];
      EntryCounts(c, f.recovery, at.value, e.(phase := RequestAccepted, lastAttempt := now), now, Attempts);
    }
  }

  lemma FailedCounts(c: Coordinator, cfg: Config, f: RequestFact, now: int)
    ensures var c' := HandleFailed(c, cfg, f, now).0;
            Count(c', Attempts) == Count(c, Attempts) && |c'.incidents| == |c.incidents| && c'.latch == c.latch
  {
    if HandleFailed(c, cfg, f, now).1.disposition.Applied? {
      var at := Locate(c, f.recovery, f.universe, f.market);
      var e := c.incidents[f.recovery].entries[at.value];
      EntryCounts(c, f.recovery, at.value, AfterFailure(cfg, e, now), now, Attempts);
    }
  }

  lemma AcceptedInv(p: Plane, cfg: Config, f: RequestFact, now: int)
    requires PlaneInv(p, cfg)
    ensures PlaneInv(Step(p, cfg, AcceptedArrives(f), now), cfg)
  {
    hide CoordOk, Count, HandleAccepted;
    AcceptedEffects(p.coord, f, now);
    OpOk(p.coord, cfg, p.universe, OpAccepted(f), now);
    AcceptedCounts(p.coord, f, now);
  }

  lemma AcceptedEffects(c: Coordinator, f: RequestFact, now: int)
    ensures HandleAccepted(c, f, now).1.effect in {NoEffect, AcceptedEffect} && !HandleAccepted(c, f, now).1.completed
  {
  }

  lemma FailedInv(p: Plane, cfg: Config, f: RequestFact, now: int)
    requires PlaneInv(p, cfg)
    ensures PlaneInv(Step(p, cfg, FailedArrives(f), now), cfg)
  {
    hide CoordOk, Count, HandleFailed;
    FailedEffects(p.coord, cfg, f, now);
    OpOk(p.coord, cfg, p.universe, OpFailed(f), now);
    FailedCounts(p.coord, cfg, f, now);
  }

  lemma FailedEffects(c: Coordinator, cfg: Config, f: RequestFact, now: int)
    ensures HandleFailed(c, cfg, f, now).1.effect in {NoEffect, RetryScheduled, MarketFailed}
    ensures !HandleFailed(c, cfg, f, now).1.completed
  {
  }

  /** A recovered market gives up exactly one unfinished entry. */
  lemma AppliedCounts(c: Coordinator, f: AppliedFact, u: Universe, now: int)
    ensures var (c', r) := HandleApplied(c, f, u, now);
            && Count(c', Attempts) == Count(c, Attempts) && |c'.incidents| == |c.incidents|
            && Count(c', One) == Count(c, One) - (if r.disposition.Applied? then 1 else 0)
            && (r.disposition.Applied? ==> r.effect.MarketRecovered?)
  {
    if HandleApplied(c, f, u, now).1.disposition.Applied? {
      var at := Locate(c, f.recovery, f.universe, f.market);
      var e := c.incidents[f.recovery].entries[at.value];
      EntryCounts(c, f.recovery, at.value, e.(phase := SnapshotApplied), now, Attempts);
      EntryCounts(c, f.recovery, at.value, e.(phase := SnapshotApplied), now, One);
    }
  }

  lemma AppliedOk(c: Coordinator, cfg: Config, f: AppliedFact, u: Universe, now: int)
    requires CoordOk(c, cfg, Some(u))
    ensures CoordOk(HandleApplied(c, f, u, now).0, cfg, Some(u))
  {
    assert Bounded(cfg, HandleApplied(c, f, u, now).0) by { OpBounded(cfg, c, OpApplied(f, u), now); }
    hide Coherent, Bounded, LatchesActive, HandleApplied;
    AppliedCoherent(c, f, u, now, u.version);
  }

  lemma AppliedInv(p: Plane, cfg: Config, f: AppliedFact, now: int)
    requires PlaneInv(p, cfg)
    ensures PlaneInv(OnApplied(p, f, now), cfg)
  {
    hide Coherent, Bounded, LatchesOk, Count, HandleApplied;
    if p.universe.Some? {
      var u := p.universe.value;
      var p' := OnApplied(p, f, now);
      AppliedOk(p.coord, cfg, f, u, now);
      AppliedCounts(p.coord, f, u, now);
      LatchCount(p.coord);
      LatchCount(p'.coord);
    }
  }

  lemma ExpireInv(p: Plane, cfg: Config, now: int)
    requires PlaneInv(p, cfg)
    ensures PlaneInv(ExpireAll(p, cfg, now), cfg)
  {
    hide CoordOk, Count, Expire;
    LatchesUntouched(p.coord, cfg, OpExpire, now);
    ExpireCounts(p.coord, cfg, now, Attempts);
    OpOk(p.coord, cfg, p.universe, OpExpire, now);
  }

  /** An accepted mark is exactly one more attempt on record. */
  lemma MarkCounts(c: Coordinator, cmd: Command, now: int)
    requires MarkEnqueued(c, cmd, now).1
    ensures var c' := MarkEnqueued(c, cmd, now).0;
            Count(c', Attempts) == Count(c, Attempts) + 1 && |c'.incidents| == |c.incidents| && c'.latch == c.latch
  {
    var at := Locate(c, cmd.recovery, cmd.universe, cmd.market);
    var e := c.incidents[cmd.recovery].entries[at.value];
    EntryCounts(c, cmd.recovery, at.value,
                e.(attempts := cmd.attempt, phase := RequestEnqueued, lastAttempt := now), now, Attempts);
  }

  function AfterMark(p: Plane, cmd: Command, now: int): Plane {
    p.(coord := MarkEnqueued(p.coord, cmd, now).0,
       stats := p.stats.(requestsEnqueued := p.stats.requestsEnqueued + 1))
  }

  lemma MarkInv(p: Plane, cfg: Config, cmd: Command, now: int)
    requires PlaneInv(p, cfg) && MarkEnqueued(p.coord, cmd, now).1
    ensures PlaneInv(AfterMark(p, cmd, now), cfg)
  {
    hide CoordOk, Count, MarkEnqueued;
    OpOk(p.coord, cfg, p.universe, OpMark(cmd), now);
    MarkCounts(p.coord, cmd, now);
  }

  lemma EnqueueFailureInv(p: Plane, cfg: Config)
    requires PlaneInv(p, cfg)
    ensures PlaneInv(p.(stats := p.stats.(requestEnqueueFailures := p.stats.requestEnqueueFailures + 1)), cfg)
  {
    hide CoordOk, Count;
  }

  /** Every command of the batch is accepted when its turn comes. */
  ghost predicate AllAccepted(c: Coordinator, batch: seq<Command>, now: int) {
    forall i :: 0 <= i < |batch| ==> MarkEnqueued(MarkAll(c, batch[..i], now), batch[i], now).1
  }

  lemma AllAcceptedTail(c: Coordinator, batch: seq<Command>, now: int)
    requires AllAccepted(c, batch, now) && batch != []
    ensures MarkEnqueued(c, batch[0], now).1
    ensures AllAccepted(MarkEnqueued(c, batch[0], now).0, batch[1..], now)
  {
    assert batch[..0] == [];
    assert MarkEnqueued(MarkAll(c, batch[..0], now), batch[0], now).1;
    var c' := MarkEnqueued(c, batch[0], now).0;
    forall i | 0 <= i < |batch[1..]| ensures MarkEnqueued(MarkAll(c', batch[1..][..i], now), batch[1..][i], now).1 {
      assert batch[..i + 1][0] == batch[0] && batch[..i + 1][1..] == batch[1..][..i];
      assert MarkEnqueued(MarkAll(c, batch[..i + 1], now), batch[i + 1], now).1;
    }
  }

  /** Sending a batch conserves, and never reaches the commit-failed branch. */
  lemma {:induction false} SendBatchInv(p: Plane, cfg: Config, batch: seq<Command>, pushes: nat, now: int)
    requires PlaneInv(p, cfg) && AllAccepted(p.coord, batch, now)
    ensures PlaneInv(SendBatch(p, batch, pushes, now), cfg)
    ensures SendBatch(p, batch, pushes, now).faulted == p.faulted
    decreases |batch|
  {
    hide PlaneInv, AllAccepted, MarkEnqueued;
    if batch != [] {
      if pushes == 0 {
        EnqueueFailureInv(p, cfg);
      } else {
        AllAcceptedTail(p.coord, batch, now);
        MarkInv(p, cfg, batch[0], now);
        SendBatchInv(AfterMark(p, batch[0], now), cfg, batch[1..], pushes - 1, now);
      }
    }
  }

  lemma PlaneIsCoherent(p: Plane, cfg: Config)
    requires PlaneInv(p, cfg)
    ensures Coherent(p.coord)
  {
  }

  lemma PumpInv(p: Plane, cfg: Config, ioReady: bool, batch: seq<Command>, pushes: nat, now: int)
    requires PlaneInv(p, cfg) && Enabled(p, cfg, Pump(ioReady, batch, pushes), now)
    ensures PlaneInv(PumpRecovery(p, cfg, ioReady, batch, pushes, now), cfg)
    ensures PumpRecovery(p, cfg, ioReady, batch, pushes, now).faulted == p.faulted
  {
    hide PlaneInv, IsBatch, MarkEnqueued, Coherent, Expire, SendBatch, Count;
    if !p.faulted && p.universe.Some? {
      ExpireInv(p, cfg, now);
      PlaneIsCoherent(ExpireAll(p, cfg, now), cfg);
      var p1 := ExpireAll(p, cfg, now);
      forall i | 0 <= i < |batch| ensures MarkEnqueued(MarkAll(p1.coord, batch[..i], now), batch[i], now).1 {
        BatchRefinesSingle(p1.coord, now, MAX_COMMANDS_PER_PUMP, batch, i);
      }
      SendBatchInv(p1, cfg, batch, pushes, now);
    }
  }

  lemma StepInv(p: Plane, cfg: Config, ev: Event, now: int)
    requires PlaneInv(p, cfg) && Enabled(p, cfg, ev, now)
    ensures PlaneInv(Step(p, cfg, ev, now), cfg)
  {
    match ev
    case Install(routes) => InstallInv(p, cfg, routes, now);
    case BarrierArrives(f, throws) => BarrierInv(p, cfg, f, throws, now);
    case MarketArrives(f, throws) => MarketInv(p, cfg, f, throws, now);
    case AcceptedArrives(f) => AcceptedInv(p, cfg, f, now);
    case FailedArrives(f) => FailedInv(p, cfg, f, now);
    case AppliedArrives(f) => AppliedInv(p, cfg, f, now);
    case Pump(ioReady, batch, pushes) => PumpInv(p, cfg, ioReady, batch, pushes, now);
  }

  // ------------------------------------------------------------------- runs

  datatype TimedEvent = TimedEvent(event: Event, at: int)

  ghost predicate ValidRun(p: Plane, cfg: Config, evs: seq<TimedEvent>)
    decreases |evs|
  {
    evs != [] ==>
      Enabled(p, cfg, evs[0].event, evs[0].at) && ValidRun(Step(p, cfg, evs[0].event, evs[0].at), cfg, evs[1..])
  }

  ghost function Run(p: Plane, cfg: Config, evs: seq<TimedEvent>): Plane
    decreases |evs|
  {
    if evs == [] then p else Run(Step(p, cfg, evs[0].event, evs[0].at), cfg, evs[1..])
  }

  lemma {:induction false} RunInv(p: Plane, cfg: Config, evs: seq<TimedEvent>)
    requires PlaneInv(p, cfg) && ValidRun(p, cfg, evs)
    ensures PlaneInv(Run(p, cfg, evs), cfg)
    decreases |evs|
  {
    if evs != [] {
      StepInv(p, cfg, evs[0].event, evs[0].at);
      RunInv(Step(p, cfg, evs[0].event, evs[0].at), cfg, evs[1..]);
    }
  }

  ghost predicate NoThrows(evs: seq<TimedEvent>) {
    forall i :: 0 <= i < |evs| ==>
      !(evs[i].event.BarrierArrives? && evs[i].event.barrierThrows) &&
      !(evs[i].event.MarketArrives? && evs[i].event.marketThrows)
  }

  /** Orchestration is faulted only by a throwing observation, never by a refused commit. */
  lemma {:induction false} OnlyThrowsFault(p: Plane, cfg: Config, evs: seq<TimedEvent>)
    requires PlaneInv(p, cfg) && ValidRun(p, cfg, evs) && !p.faulted && NoThrows(evs)
    ensures !Run(p, cfg, evs).faulted
    decreases |evs|
  {
    hide PlaneInv, Enabled;
    if evs != [] {
      StepInv(p, cfg, evs[0].event, evs[0].at);
      if evs[0].event.Pump? {
        PumpInv(p, cfg, evs[0].event.ioReady, evs[0].event.batch, evs[0].event.pushes, evs[0].at);
      }
      assert forall i :: 0 <= i < |evs[1..]| ==> evs[1..][i] == evs[i + 1];
      OnlyThrowsFault(Step(p, cfg, evs[0].event, evs[0].at), cfg, evs[1..]);
    }
  }

  /** Over every run: scheduled markets are recovered, superseded or still latched; requests sent
      are the attempts recorded; and every latch belongs to the active universe. */
  lemma RecoveryConservation(cfg: Config, evs: seq<TimedEvent>)
    requires ValidRun(InitialPlane, cfg, evs)
    ensures var p := Run(InitialPlane, cfg, evs);
            && p.stats.marketsScheduled == p.stats.marketsRecovered + p.stats.marketsSuperseded + |p.coord.latch|
            && p.stats.requestsEnqueued == Count(p.coord, Attempts)
            && p.stats.incidentsCreated == |p.coord.incidents|
            && Coherent(p.coord)
            && (p.universe.Some? ==> LatchesActive(p.coord, p.universe.value.version))
  {
    InitialPlaneInv(cfg);
    RunInv(InitialPlane, cfg, evs);
  }
}
