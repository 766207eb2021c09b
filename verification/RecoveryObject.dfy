/** The coordinator as the object it is: three maps and an id counter updated in place, with the
    insert-and-roll-back creation, the map walks and the timeout scan written as loops.  Each
    method is proved against the value-level operation of module Recovery. */
module RecoveryObject {
  import opened Wrappers
  import opened Bits
  import opened Sums
  import opened Recovery
  import opened RecoveryProgress
  import opened RecoveryCommands
  import opened ControlRecovery

  datatype SupersessionSummary = SupersessionSummary(incidents: int, markets: int, latches: int)
  datatype TimeoutSummary = TimeoutSummary(acks: int, snapshots: int, retries: int, failures: int)

  class RecoveryCoordinator {
    const config: Config
    var nextId: nat
    var incidents: map<nat, Incident>
    var bySource: map<SourceKey, nat>
    var latch: map<nat, nat>

    ghost function View(): Coordinator
      reads this
    {
      Coordinator(nextId, incidents, bySource, latch)
    }

    ghost predicate Valid()
      reads this
    {
      Coherent(View())
    }

    constructor (config: Config)
      ensures Valid() && View() == Empty && this.config == config
    {
      this.config := config;
      nextId, incidents, bySource, latch := 1, map[], map[], map[];
    }

    // -------------------------------------------------------------- observe

    /** Latch the entries' markets to `id` one by one; the insertion numbered `failAt` throws, and
        so does a market that is already taken.  On a throw the latches made so far are dropped. */
    method LatchMarkets(entries: seq<Entry>, id: nat, failAt: nat) returns (threw: bool)
      requires forall i :: 0 <= i < |entries| ==> entries[i].market !in latch
      modifies this`latch
      ensures threw <==> failAt < |entries| || !DistinctMarkets(entries)
      ensures latch == if threw then old(latch) else old(latch) + (map m | m in Markets(entries) :: id)
    {
      threw := false;
      var i := 0;
      while i < |entries| && !threw
        invariant 0 <= i <= |entries| && i <= failAt
        invariant latch == old(latch) + (map m | m in Markets(entries[..i]) :: id)
        invariant DistinctMarkets(entries[..i])
        invariant threw ==> i < |entries| && (failAt < |entries| || !DistinctMarkets(entries))
        decreases |entries| - i, !threw
      {
        if failAt == i {
          threw := true;
        } else if entries[i].market in latch {
          AlreadyLatched(entries, i);
          threw := true;
        } else {
          LatchNext(entries, i);
          latch := latch[entries[i].market := id];
          i := i + 1;
        }
      }
      if threw {
        FreshOnly(entries, i, latch, old(latch));
        latch := latch - Markets(entries[..i]);
      } else {
        assert entries[..i] == entries;
      }
    }

    /** Insert incident, key and latches; a throw undoes everything inserted so far. */
    method Commit(key: SourceKey, sid: nat, reason: Reason, entries: seq<Entry>, now: int, failAt: nat)
      returns (threw: bool)
      requires nextId !in incidents && key !in bySource
      requires forall i :: 0 <= i < |entries| ==> entries[i].market !in latch
      modifies this
      ensures threw <==> failAt < 2 + |entries| || !DistinctMarkets(entries)
      ensures View() == if threw then old(View())
                        else CreateIncident(old(View()), key, sid, reason, entries, now)
    {
      hide DistinctMarkets, Markets;
      var id := nextId;
      if failAt == 0 { return true; }
      incidents := incidents[id := MakeIncident(id, key, sid, reason, entries, now)];
      if failAt == 1 {
        incidents := incidents - {id};
        assert incidents == old(incidents);
        return true;
      }
      bySource := bySource[key := id];
      threw := LatchMarkets(entries, id, failAt - 2);
      if threw {
        bySource := bySource - {key};
        incidents := incidents - {id};
        assert bySource == old(bySource) && incidents == old(incidents);
      } else {
        nextId := Inc64(nextId);
      }
    }

    /** observe() for one market. */
    method ObserveMarket(f: MarketFact, u: Universe, now: int, failAt: nat) returns (o: Observation, threw: bool)
      requires Valid()
      modifies this
      ensures Valid()
      ensures threw <==> JudgeMarket(old(View()), f, u, now).Create? && failAt < 3
      ensures threw ==> View() == old(View())
      ensures !threw ==> (View(), o) == Recovery.ObserveMarket(old(View()), f, u, now)
    {
      ObserveMarketCoherent(View(), f, u, now);
      var key := SourceKey(f.universe, f.incident);
      o, threw := Observation(StaleUniverse, 0, 0), false;
      if u.version == 0 || u.version != f.universe { return; }
      if f.incident.origin.UnknownOrigin? || f.incident.incident == 0 {
        return Observation(InvalidIncident, 0, 0), false;
      }
      if !ValidTargetedSource(f) { return Observation(InvalidReason, 0, 0), false; }
      var route := FindRoute(u.routes, f.market);
      if route.None? { return Observation(UnknownMarket, 0, 0), false; }
      if route.value.event != f.event || route.value.shard != f.shard {
        return Observation(RouteMismatch, 0, 0), false;
      }
      if key in bySource { return Observation(Duplicate, bySource[key], 0), false; }
      if f.market in latch { return Observation(AlreadyRecovering, latch[f.market], 0), false; }
      if nextId == 0 { return Observation(IdExhausted, 0, 0), false; }
      var entries := [NewEntry(Route(f.market, f.event, f.shard), now)];
      o := Observation(Created, nextId, 1);
      threw := Commit(key, f.sid, f.reason, entries, now, failAt);
    }

    /** Entries for the routed markets nobody holds, and the first holder met on the way. */
    method CollectFresh(routes: seq<Route>, now: int) returns (entries: seq<Entry>, existing: nat)
      ensures entries == FreshEntries(routes, latch, now)
      ensures existing == FirstHolder(routes, latch)
    {
      entries, existing := [], 0;
      var i := 0;
      while i < |routes|
        invariant 0 <= i <= |routes|
        invariant entries + FreshEntries(routes[i..], latch, now) == FreshEntries(routes, latch, now)
        invariant (if existing != 0 then existing else FirstHolder(routes[i..], latch)) == FirstHolder(routes, latch)
      {
        var route := routes[i];
        assert routes[i..][0] == route && routes[i..][1..] == routes[i + 1..];
        if route.market in latch {
          if existing == 0 { existing := latch[route.market]; }
        } else {
          entries := entries + [NewEntry(route, now)];
        }
        i := i + 1;
      }
    }

    /** observe() for a subscription barrier: one entry per routed market nobody holds. */
    method ObserveBarrier(f: BarrierFact, u: Universe, now: int, failAt: nat) returns (o: Observation, threw: bool)
      requires Valid()
      modifies this
      ensures Valid()
      ensures var v := JudgeBarrier(old(View()), f, u, now);
              threw <==> v.Create? && (failAt < 2 + |v.entries| || !DistinctMarkets(v.entries))
      ensures threw ==> View() == old(View())
      ensures !threw ==> (View(), o) == Recovery.ObserveBarrier(old(View()), f, u, now)
    {
      var key := SourceKey(f.universe, f.incident);
      o, threw := Observation(StaleUniverse, 0, 0), false;
      if u.version == 0 || u.version != f.universe { return; }
      if !f.incident.origin.WireSession? || f.incident.producer != 0 || f.incident.incident == 0 {
        return Observation(InvalidIncident, 0, 0), false;
      }
      if !f.reason.ExchangeSequenceGap? { return Observation(InvalidReason, 0, 0), false; }
      if key in bySource { return Observation(Duplicate, bySource[key], 0), false; }
      if u.routes == [] { return Observation(UnknownMarket, 0, 0), false; }
      if nextId == 0 { return Observation(IdExhausted, 0, 0), false; }

      var entries, existing := CollectFresh(u.routes, now);
      if entries == [] { return Observation(AlreadyRecovering, existing, 0), false; }
      o := Observation(Created, nextId, |entries|);
      if DistinctMarkets(entries) { ObserveBarrierCoherent(View(), f, u, now); }
      threw := Commit(key, f.sid, f.reason, entries, now, failAt);
    }

    // ------------------------------------------------------------- requests

    /** The ready market that goes first, found by walking the map in any order. */
    method NextPendingCommand(now: int) returns (o: Option<Command>)
      requires Valid()
      ensures IsNext(View(), now, o)
    {
      o := None;
      var todo := incidents.Keys;
      while todo != {}
        invariant todo <= incidents.Keys
        invariant o.None? ==> forall r: nat, i: nat :: ReadyIn(View(), now, r, i) ==> r in todo
        invariant o.Some? ==> IsReadyCommand(View(), now, o.value)
        invariant o.Some? ==>
          forall r: nat, i: nat ::
            ReadyIn(View(), now, r, i) && r !in todo ==> Precedes(o.value, CommandAt(View(), r, i))
        decreases todo
      {
        var r :| r in todo;
        var inc := incidents[r];
        var k := 0;
        while k < |inc.entries|
          invariant 0 <= k <= |inc.entries|
          invariant o.None? ==> forall q: nat, i: nat :: ReadyIn(View(), now, q, i) ==> q in todo && (q == r ==> k <= i)
          invariant o.Some? ==> IsReadyCommand(View(), now, o.value)
          invariant o.Some? ==> forall q: nat, i: nat ::
                      ReadyIn(View(), now, q, i) && (q !in todo || (q == r && i < k)) ==>
                      Precedes(o.value, CommandAt(View(), q, i))
        {
          var e := inc.entries[k];
          if Ready(e, now) {
            assert ReadyIn(View(), now, r, k);
            var cmd := CommandFor(inc, e);
            assert cmd == CommandAt(View(), r, k);
            if o.None? || cmd.recovery < o.value.recovery ||
               (cmd.recovery == o.value.recovery && cmd.market < o.value.market) {
              o := Some(cmd);
            }
          }
          k := k + 1;
        }
        todo := todo - {r};
      }
    }

    /** The oldest incident with a ready market. */
    method OldestReadyIncident(now: int) returns (best: Option<nat>)
      requires Valid()
      ensures best.None? ==> NothingReady(View(), now)
      ensures best.Some? ==> OldestReady(View(), now, best.value)
    {
      best := None;
      var todo := incidents.Keys;
      while todo != {}
        invariant todo <= incidents.Keys
        invariant best.None? ==> forall r: nat, i: nat :: ReadyIn(View(), now, r, i) ==> r in todo
        invariant best.Some? ==> exists i: nat :: ReadyIn(View(), now, best.value, i)
        invariant best.Some? ==>
          forall r: nat, i: nat :: ReadyIn(View(), now, r, i) && r !in todo ==> best.value <= r
        decreases todo
      {
        var r :| r in todo;
        var ready := false;
        var k := 0;
        while k < |incidents[r].entries| && !ready
          invariant 0 <= k <= |incidents[r].entries|
          invariant ready <==> exists i: nat :: i < k && ReadyIn(View(), now, r, i)
          decreases |incidents[r].entries| - k
        {
          if Ready(incidents[r].entries[k], now) { assert ReadyIn(View(), now, r, k); ready := true; }
          k := k + 1;
        }
        if ready && (best.None? || r < best.value) { best := Some(r); }
        todo := todo - {r};
      }
    }

    /** Commands for all ready markets of one incident, in entry order. */
    method ReadyCommandsOf(r: nat, now: int) returns (cmds: seq<Command>)
      requires Valid() && r in incidents
      ensures DistinctCommands(cmds)
      ensures forall j :: 0 <= j < |cmds| ==> ReadyFor(View(), now, r, cmds[j])
      ensures forall i: nat :: ReadyIn(View(), now, r, i) ==> CommandAt(View(), r, i) in cmds
    {
      cmds := [];
      var inc := incidents[r];
      assert DistinctMarkets(inc.entries);
      var k := 0;
      while k < |inc.entries|
        invariant 0 <= k <= |inc.entries|
        invariant DistinctCommands(cmds)
        invariant forall j :: 0 <= j < |cmds| ==> ReadyBelow(View(), now, r, k, cmds[j])
        invariant forall i: nat :: i < k && ReadyIn(View(), now, r, i) ==> CommandAt(View(), r, i) in cmds
      {
        if Ready(inc.entries[k], now) {
          assert ReadyIn(View(), now, r, k);
          var cmd := CommandFor(inc, inc.entries[k]);
          assert ReadyBelow(View(), now, r, k + 1, cmd);
          assert forall j :: 0 <= j < |cmds| ==> ReadyBelow(View(), now, r, k, cmds[j]) && cmds[j].market != cmd.market;
          cmds := cmds + [cmd];
        }
        assert forall j :: 0 <= j < |cmds| ==>
                 ReadyBelow(View(), now, r, k, cmds[j]) || cmds[j] == CommandAt(View(), r, k);
        k := k + 1;
      }
    }

    /** The lowest `maximum` ready markets of the oldest ready incident. */
    method NextPendingCommands(now: int, maximum: nat) returns (cmds: seq<Command>)
      requires Valid()
      ensures IsBatch(View(), now, maximum, cmds)
    {
      cmds := [];
      if maximum == 0 { return; }
      var best := OldestReadyIncident(now);
      if best.None? { return; }
      var ready := ReadyCommandsOf(best.value, now);
      var sorted := SortByMarket(ready);
      assert forall j :: 0 <= j < |sorted| ==> sorted[j] in ready;
      cmds := if |sorted| > maximum then sorted[..maximum] else sorted;
      TruncatedIsLowest(View(), now, best.value, maximum, sorted, cmds);
    }

    method MarkCommandEnqueued(cmd: Command, now: int) returns (ok: bool)
      requires Valid()
      modifies this`incidents
      ensures Valid()
      ensures (View(), ok) == MarkEnqueued(old(View()), cmd, now)
    {
      hide Coherent;
      MarkCoherent(View(), cmd, now, 0);
      ok := false;
      if cmd.recovery !in incidents { return; }
      var inc := incidents[cmd.recovery];
      if cmd.universe != inc.universe { return; }
      var at := FindEntry(inc.entries, cmd.market);
      if at.None? { return; }
      if cmd.market !in latch || latch[cmd.market] != cmd.recovery { return; }
      var e := inc.entries[at.value];
      if !e.phase.PendingRequest? || e.nextAttempt > now || e.attempts == U32_MAX || cmd.attempt != e.attempts + 1 {
        return;
      }
      e := e.(attempts := cmd.attempt, phase := RequestEnqueued, lastAttempt := now);
      incidents := incidents[cmd.recovery := inc.(entries := inc.entries[at.value := e], lastProgress := now)];
      ok := true;
    }

    // ---------------------------------------------------------------- facts

    method HandleAccepted(f: RequestFact, now: int) returns (result: FactResult)
      requires Valid()
      modifies this`incidents
      ensures Valid()
      ensures (View(), result) == Recovery.HandleAccepted(old(View()), f, now)
    {
      hide Coherent;
      AcceptedCoherent(View(), f, now, 0);
      result := REJECTED;
      if f.recovery !in incidents { return; }
      var inc := incidents[f.recovery];
      if f.universe != inc.universe { return; }
      var at := FindEntry(inc.entries, f.market);
      if at.None? { return; }
      var e := inc.entries[at.value];
      if f.attempt < e.attempts { return IGNORED; }
      if f.attempt > e.attempts { return; }
      if f.market !in latch || latch[f.market] != f.recovery { return IGNORED; }
      if !e.phase.RequestEnqueued? { return IGNORED; }
      e := e.(phase := RequestAccepted, lastAttempt := now);
      incidents := incidents[f.recovery := inc.(entries := inc.entries[at.value := e], lastProgress := now)];
      result := FactResult(Applied, AcceptedEffect, false, 0);
    }

    method HandleFailed(f: RequestFact, now: int) returns (result: FactResult)
      requires Valid()
      modifies this`incidents
      ensures Valid()
      ensures (View(), result) == Recovery.HandleFailed(old(View()), config, f, now)
    {
      hide Coherent, Backoff;
      FailedCoherent(View(), config, f, now, 0);
      result := REJECTED;
      if f.recovery !in incidents { return; }
      var inc := incidents[f.recovery];
      if f.universe != inc.universe { return; }
      var at := FindEntry(inc.entries, f.market);
      if at.None? { return; }
      var e := inc.entries[at.value];
      if f.attempt < e.attempts { return IGNORED; }
      if f.attempt > e.attempts { return; }
      if f.market !in latch || latch[f.market] != f.recovery { return IGNORED; }
      if !e.phase.RequestEnqueued? && !e.phase.RequestAccepted? { return IGNORED; }
      if e.attempts >= config.maxAttempts {
        e := e.(phase := Failed);
        result := FactResult(Applied, MarketFailed, false, 0);
      } else {
        var delay := RetryBackoff(config, e.attempts);
        e := e.(phase := PendingRequest, nextAttempt := now + delay);
        result := FactResult(Applied, RetryScheduled, false, 0);
      }
      incidents := incidents[f.recovery := inc.(entries := inc.entries[at.value := e], lastProgress := now)];
    }

    method HandleApplied(f: AppliedFact, u: Universe, now: int) returns (result: FactResult)
      requires Valid()
      modifies this`incidents, this`latch
      ensures Valid()
      ensures (View(), result) == Recovery.HandleApplied(old(View()), f, u, now)
    {
      hide Coherent;
      AppliedCoherent(View(), f, u, now, 0);
      result := REJECTED;
      if u.version == 0 || f.universe != u.version { return IGNORED; }
      if f.recovery !in incidents { return; }
      var inc := incidents[f.recovery];
      if f.universe != inc.universe { return; }
      var at := FindEntry(inc.entries, f.market);
      if at.None? { return; }
      var e := inc.entries[at.value];
      var route := FindRoute(u.routes, f.market);
      if route.None? || route.value.shard != f.shard || route.value.shard != e.shard || route.value.event != e.event {
        return;
      }
      if f.market !in latch || latch[f.market] != f.recovery { return IGNORED; }
      if e.phase.SnapshotApplied? || e.phase.Superseded? { return IGNORED; }
      if e.phase.PendingRequest? && e.attempts == 0 { return; }
      if !f.transition.Recovered? && !f.transition.NoTransition? { return; }
      e := e.(phase := SnapshotApplied);
      inc := inc.(entries := inc.entries[at.value := e], lastProgress := now);
      incidents := incidents[f.recovery := inc];
      latch := latch - {f.market};
      var completed := AllFinished(inc.entries);
      result := FactResult(Applied, MarketRecovered, completed, if completed then now - inc.startedAt else 0);
    }

    // ------------------------------------------------------------ supersede

    /** Close one incident of an older universe: release its latches, mark what is unfinished. */
    method SupersedeOne(r: nat, version: nat, now: int) returns (markets: int, latches: int, changed: bool)
      requires r in incidents && incidents[r].universe != version
      requires DistinctMarkets(incidents[r].entries)
      requires forall m :: m in latch && latch[m] == r <==> m in OpenMarkets(incidents[r].entries)
      modifies this`incidents, this`latch
      ensures incidents == old(incidents)[r := SupersedeIncident(old(incidents[r]), version, now)]
      ensures latch == old(latch) - OpenMarkets(old(incidents[r].entries))
      ensures markets == latches == UnfinishedIn(old(incidents[r]))
      ensures changed <==> HasUnfinished(old(incidents[r].entries))
    {
      markets, latches, changed := 0, 0, false;
      var es := incidents[r].entries;
      var closed := es;
      for i := 0 to |es|
        invariant |closed| == |es|
        invariant forall k :: 0 <= k < |es| ==> closed[k] == if k < i then SupersedeEntry(es[k]) else es[k]
        invariant incidents == old(incidents)
        invariant latch == old(latch) - OpenMarkets(es[..i])
        invariant markets == latches == SeqSum(es[..i], One)
        invariant changed <==> exists k :: 0 <= k < i && Unfinished(es[k])
      {
        OpenNext(es, i);
        if es[i].market in latch && latch[es[i].market] == r {
          latch := latch - {es[i].market};
          latches := latches + 1;
          changed := true;
        }
        if Unfinished(es[i]) {
          closed := closed[i := es[i].(phase := Superseded)];
          markets := markets + 1;
          changed := true;
        }
      }
      assert es[..|es|] == es;
      if changed {
        assert closed == SupersedeEntries(es);
        incidents := incidents[r := incidents[r].(entries := closed, lastProgress := now)];
      } else {
        assert incidents == incidents[r := incidents[r]];
      }
    }

    /** One iteration of the walk: close `r` unless it belongs to the new universe. */
    method SupersedeNext(ghost before: Coordinator, ghost todo: set<nat>, r: nat, version: nat, now: int)
      returns (markets: int, latches: int, count: int)
      requires Coherent(before) && r in todo && todo <= before.incidents.Keys
      requires View() == Closing(before, todo, version, now)
      modifies this`incidents, this`latch
      ensures View() == Closing(before, todo - {r}, version, now)
      ensures count == SupersededOnce(version)(before.incidents[r])
      ensures markets == latches == SupersededIn(version)(before.incidents[r])
    {
      hide Coherent, SupersededOnce, SupersededIn, Closing, SupersedeIncident;
      ClosingStep(before, todo, r, version, now);
      hide OpenMarkets, DistinctMarkets, UnfinishedIn, HasUnfinished;
      markets, latches, count := 0, 0, 0;
      if incidents[r].universe != version {
        var changed;
        markets, latches, changed := SupersedeOne(r, version, now);
        count := if changed then 1 else 0;
      }
    }

    /** The walk over every incident, in any order. */
    method SupersedeOlder(version: nat, now: int) returns (summary: SupersessionSummary)
      requires Valid() && version != 0
      modifies this`incidents, this`latch
      ensures View() == Closing(old(View()), {}, version, now)
      ensures summary == SupersessionSummary(
                Sum(old(incidents), SupersededOnce(version)),
                Sum(old(incidents), SupersededIn(version)), Sum(old(incidents), SupersededIn(version)))
    {
      summary := SupersessionSummary(0, 0, 0);
      ghost var before := View();
      ClosingStarts(before, version, now);
      hide Coherent, SupersededOnce, SupersededIn, Closing, Sum;
      var todo := incidents.Keys;
      SumEmpty(before.incidents - todo, SupersededOnce(version));
      SumEmpty(before.incidents - todo, SupersededIn(version));
      while todo != {}
        invariant todo <= before.incidents.Keys && View() == Closing(before, todo, version, now)
        invariant summary.incidents == Sum(before.incidents - todo, SupersededOnce(version))
        invariant summary.markets == Sum(before.incidents - todo, SupersededIn(version))
        invariant summary.latches == summary.markets
        decreases todo
      {
        var r :| r in todo;
        SumWithOneMore(before.incidents, todo, r, SupersededOnce(version));
        SumWithOneMore(before.incidents, todo, r, SupersededIn(version));
        var markets, latches, count := SupersedeNext(before, todo, r, version, now);
        summary := SupersessionSummary(summary.incidents + count, summary.markets + markets, summary.latches + latches);
        todo := todo - {r};
      }
      assert before.incidents - todo == before.incidents;
    }

    /** supersede_before_universe(). */
    method SupersedeBefore(version: nat, now: int) returns (summary: SupersessionSummary)
      requires Valid()
      modifies this`incidents, this`latch
      ensures Valid()
      ensures View() == Supersede(old(View()), version, now)
      ensures summary == if version == 0 then SupersessionSummary(0, 0, 0)
                         else SupersessionSummary(
                           Sum(old(incidents), SupersededOnce(version)),
                           Sum(old(incidents), SupersededIn(version)), Sum(old(incidents), SupersededIn(version)))
    {
      hide Coherent, Closing, Sum;
      summary := SupersessionSummary(0, 0, 0);
      if version != 0 {
        SupersedeCoherent(View(), version, now);
        ClosingEnds(View(), version, now);
        summary := SupersedeOlder(version, now);
      }
    }

    // ------------------------------------------------------------- timeouts

    /** Expire the overdue requests of one incident. */
    method ExpireOne(r: nat, now: int) returns (summary: TimeoutSummary)
      requires r in incidents
      requires LatchedTo(incidents[r], latch, r)
      modifies this`incidents
      ensures incidents == old(incidents)[r := ExpireIncident(config, old(incidents[r]), now)]
      ensures summary == IncidentTimeouts(config, old(incidents[r]), now)
    {
      var es := incidents[r].entries;
      var moved := es;
      var any := false;
      summary := TimeoutSummary(0, 0, 0, 0);
      for i := 0 to |es|
        invariant incidents == old(incidents)
        invariant |moved| == |es|
        invariant forall k :: 0 <= k < |es| ==> moved[k] == if k < i then ExpireEntry(config, es[k], now) else es[k]
        invariant any <==> exists k :: 0 <= k < i && TimedOut(config, es[k], now)
        invariant summary == EntryTimeouts(config, es[..i], now)
      {
        var e := es[i];
        EntryTimeoutsNext(config, es, i, now);
        var overdue := e.phase.RequestEnqueued? && now >= e.lastAttempt + config.requestAckTimeout;
        if e.phase.RequestAccepted? { overdue := now >= e.lastAttempt + config.snapshotTimeout; }
        if overdue && e.market in latch && latch[e.market] == r {
          any := true;
          if e.phase.RequestEnqueued? {
            summary := summary.(acks := summary.acks + 1);
          } else {
            summary := summary.(snapshots := summary.snapshots + 1);
          }
          if e.attempts >= config.maxAttempts {
            moved := moved[i := e.(phase := Failed)];
            summary := summary.(failures := summary.failures + 1);
          } else {
            var delay := RetryBackoff(config, e.attempts);
            moved := moved[i := e.(phase := PendingRequest, nextAttempt := now + delay)];
            summary := summary.(retries := summary.retries + 1);
          }
        }
      }
      assert es[..|es|] == es;
      if any {
        assert moved == ExpireEntries(config, es, now);
        incidents := incidents[r := incidents[r].(entries := moved, lastProgress := now)];
      } else {
        assert incidents == incidents[r := incidents[r]];
      }
    }

    method ExpireNext(ghost before: Coordinator, todo: set<nat>, r: nat, now: int, so: TimeoutSummary)
      returns (summary: TimeoutSummary)
      requires Coherent(before) && r in todo && todo <= before.incidents.Keys
      requires View() == Expiring(before, todo, config, now)
      requires so == TimeoutsOver(before.incidents - todo, config, now)
      modifies this`incidents
      ensures View() == Expiring(before, todo - {r}, config, now)
      ensures summary == TimeoutsOver(before.incidents - (todo - {r}), config, now)
    {
      hide Coherent, Expiring, TimeoutsOver, IncidentTimeouts, ExpireIncident, LatchedTo;
      ExpiringStep(before, todo, r, config, now);
      TimeoutsWithOneMore(before.incidents, todo, r, config, now);
      var one := ExpireOne(r, now);
      summary := TimeoutSummary(so.acks + one.acks, so.snapshots + one.snapshots,
                                so.retries + one.retries, so.failures + one.failures);
    }

    method ExpireTimeouts(now: int) returns (summary: TimeoutSummary)
      requires Valid()
      modifies this`incidents
      ensures Valid()
      ensures View() == Expire(old(View()), config, now)
      ensures summary == TimeoutCounts(old(View()), config, now)
    {
      hide Coherent, Expiring, Expire, TimeoutsOver, TimeoutCounts;
      ghost var before := View();
      ExpireCoherent(before, config, now, 0);
      ExpiringStarts(before, config, now);
      summary := TimeoutSummary(0, 0, 0, 0);
      var todo := incidents.Keys;
      while todo != {}
        invariant todo <= before.incidents.Keys && View() == Expiring(before, todo, config, now)
        invariant summary == TimeoutsOver(before.incidents - todo, config, now)
        decreases todo
      {
        var r :| r in todo;
        summary := ExpireNext(before, todo, r, now, summary);
        todo := todo - {r};
      }
      ExpiringEnds(before, todo, config, now);
    }
  }

  /** Every unfinished entry of incident `r` holds the latch of its market. */
  predicate LatchedTo(inc: Incident, latch: map<nat, nat>, r: nat) {
    forall i :: 0 <= i < |inc.entries| && Unfinished(inc.entries[i]) ==>
      inc.entries[i].market in latch && latch[inc.entries[i].market] == r
  }

  function EntryTimeouts(cfg: Config, es: seq<Entry>, now: int): TimeoutSummary {
    TimeoutSummary(SeqSum(es, AckExpired(cfg, now)), SeqSum(es, SnapshotExpired(cfg, now)),
                   SeqSum(es, RetryAfter(cfg, now)), SeqSum(es, FailureAfter(cfg, now)))
  }

  function IncidentTimeouts(cfg: Config, inc: Incident, now: int): TimeoutSummary {
    EntryTimeouts(cfg, inc.entries, now)
  }

  ghost function TimeoutsOver(m: map<nat, Incident>, cfg: Config, now: int): TimeoutSummary {
    TimeoutSummary(Sum(m, Over(AckExpired(cfg, now))), Sum(m, Over(SnapshotExpired(cfg, now))),
                   Sum(m, Over(RetryAfter(cfg, now))), Sum(m, Over(FailureAfter(cfg, now))))
  }

  /** What the telemetry of a timeout scan is defined to count. */
  ghost function TimeoutCounts(c: Coordinator, cfg: Config, now: int): TimeoutSummary {
    TimeoutSummary(Count(c, AckExpired(cfg, now)), Count(c, SnapshotExpired(cfg, now)),
                   Count(c, RetryAfter(cfg, now)), Count(c, FailureAfter(cfg, now)))
  }

  lemma EntryTimeoutsNext(cfg: Config, es: seq<Entry>, i: nat, now: int)
    requires i < |es|
    ensures var s := EntryTimeouts(cfg, es[..i], now);
            EntryTimeouts(cfg, es[..i + 1], now) == TimeoutSummary(
              s.acks + AckExpired(cfg, now)(es[i]), s.snapshots + SnapshotExpired(cfg, now)(es[i]),
              s.retries + RetryAfter(cfg, now)(es[i]), s.failures + FailureAfter(cfg, now)(es[i]))
  {
    assert es[..i + 1] == es[..i] + [es[i]];
    SnocSum(es[..i], es[i], AckExpired(cfg, now));
    SnocSum(es[..i], es[i], SnapshotExpired(cfg, now));
    SnocSum(es[..i], es[i], RetryAfter(cfg, now));
    SnocSum(es[..i], es[i], FailureAfter(cfg, now));
  }

  lemma SnocSum(es: seq<Entry>, e: Entry, f: Entry -> int)
    ensures SeqSum(es + [e], f) == SeqSum(es, f) + f(e)
  {
    SeqSumAppend(es, [e], f);
    assert SeqSum([e], f) == f(e);
  }

  /** The state half-way through a timeout scan, with the incidents in `todo` not visited yet. */
  ghost function Expiring(c: Coordinator, todo: set<nat>, cfg: Config, now: int): Coordinator {
    c.(incidents := map r | r in c.incidents ::
                      if r in todo then c.incidents[r] else ExpireIncident(cfg, c.incidents[r], now))
  }

  lemma ExpiringStarts(c: Coordinator, cfg: Config, now: int)
    ensures Expiring(c, c.incidents.Keys, cfg, now) == c
    ensures TimeoutsOver(c.incidents - c.incidents.Keys, cfg, now) == TimeoutSummary(0, 0, 0, 0)
  {
    hide Over;
    SumEmpty(c.incidents - c.incidents.Keys, Over(AckExpired(cfg, now)));
    SumEmpty(c.incidents - c.incidents.Keys, Over(SnapshotExpired(cfg, now)));
    SumEmpty(c.incidents - c.incidents.Keys, Over(RetryAfter(cfg, now)));
    SumEmpty(c.incidents - c.incidents.Keys, Over(FailureAfter(cfg, now)));
  }

  lemma ExpiringStep(c: Coordinator, todo: set<nat>, r: nat, cfg: Config, now: int)
    requires Coherent(c) && r in todo && todo <= c.incidents.Keys
    ensures var mid := Expiring(c, todo, cfg, now);
            && r in mid.incidents && mid.incidents[r] == c.incidents[r] && mid.latch == c.latch
            && LatchedTo(c.incidents[r], c.latch, r)
            && Expiring(c, todo - {r}, cfg, now) ==
                 mid.(incidents := mid.incidents[r := ExpireIncident(cfg, c.incidents[r], now)])
  {
    hide ExpireIncident;
    forall i | 0 <= i < |c.incidents[r].entries| && Unfinished(c.incidents[r].entries[i])
      ensures Holds(c, c.incidents[r].entries[i].market, r)
    {
      assert Pursues(c, r, c.incidents[r].entries[i].market);
    }
    hide Coherent;
  }

  lemma TimeoutsWithOneMore(m: map<nat, Incident>, todo: set<nat>, r: nat, cfg: Config, now: int)
    requires r in todo && todo <= m.Keys
    ensures var (s, one) := (TimeoutsOver(m - todo, cfg, now), IncidentTimeouts(cfg, m[r], now));
            TimeoutsOver(m - (todo - {r}), cfg, now) ==
              TimeoutSummary(s.acks + one.acks, s.snapshots + one.snapshots, s.retries + one.retries,
                             s.failures + one.failures)
  {
    hide AckExpired, SnapshotExpired, RetryAfter, FailureAfter, Sum, SeqSum;
    SumWithOneMore(m, todo, r, Over(AckExpired(cfg, now)));
    SumWithOneMore(m, todo, r, Over(SnapshotExpired(cfg, now)));
    SumWithOneMore(m, todo, r, Over(RetryAfter(cfg, now)));
    SumWithOneMore(m, todo, r, Over(FailureAfter(cfg, now)));
  }

  lemma ExpiringEnds(c: Coordinator, todo: set<nat>, cfg: Config, now: int)
    requires todo == {}
    ensures Expiring(c, todo, cfg, now) == Expire(c, cfg, now)
    ensures TimeoutsOver(c.incidents - todo, cfg, now) == TimeoutCounts(c, cfg, now)
  {
    assert c.incidents - todo == c.incidents;
  }

  /** The state half-way through a supersession, with the incidents in `todo` still open. */
  ghost function Closing(c: Coordinator, todo: set<nat>, version: nat, now: int): Coordinator {
    c.(incidents := map r | r in c.incidents ::
                      if r in todo then c.incidents[r] else SupersedeIncident(c.incidents[r], version, now),
       latch := map m | m in c.latch &&
                        !(c.latch[m] in c.incidents && c.latch[m] !in todo
                          && c.incidents[c.latch[m]].universe != version)
                :: c.latch[m])
  }

  lemma SumWithOneMore(m: map<nat, Incident>, todo: set<nat>, r: nat, f: Incident -> int)
    requires r in todo && r in m
    ensures Sum(m - (todo - {r}), f) == Sum(m - todo, f) + f(m[r])
  {
    assert m - (todo - {r}) == (m - todo)[r := m[r]];
    SumUpdate(m - todo, r, m[r], f);
  }

  lemma ClosingStep(c: Coordinator, todo: set<nat>, r: nat, version: nat, now: int)
    requires Coherent(c) && r in todo && todo <= c.incidents.Keys
    ensures var mid := Closing(c, todo, version, now);
            && r in mid.incidents && mid.incidents[r] == c.incidents[r]
            && DistinctMarkets(mid.incidents[r].entries)
            && (forall m :: m in mid.latch && mid.latch[m] == r <==> m in OpenMarkets(c.incidents[r].entries))
            && (c.incidents[r].universe != version ==>
                  Closing(c, todo - {r}, version, now) ==
                  mid.(incidents := mid.incidents[r := SupersedeIncident(c.incidents[r], version, now)],
                       latch := mid.latch - OpenMarkets(c.incidents[r].entries)))
            && (c.incidents[r].universe == version ==> Closing(c, todo - {r}, version, now) == mid)
            && SupersededIn(version)(c.incidents[r]) ==
            (if c.incidents[r].universe == version then 0 else UnfinishedIn(c.incidents[r]))
            && SupersededOnce(version)(c.incidents[r]) ==
                 (if c.incidents[r].universe != version && HasUnfinished(c.incidents[r].entries) then 1 else 0)
  {
    forall m: nat ensures m in c.latch && c.latch[m] == r <==> m in OpenMarkets(c.incidents[r].entries) {
      assert Holds(c, m, r) <==> Pursues(c, r, m);
      OpenIsPursued(c.incidents[r], m);
    }
  }

  lemma ClosingStarts(c: Coordinator, version: nat, now: int)
    ensures Closing(c, c.incidents.Keys, version, now) == c
  {
  }

  lemma ClosingEnds(c: Coordinator, version: nat, now: int)
    requires Coherent(c) && version != 0
    ensures Closing(c, {}, version, now) == Supersede(c, version, now)
  {
    forall m: nat | m in c.latch ensures c.latch[m] in c.incidents {
      assert Holds(c, m, c.latch[m]);
    }
  }

  /** What one more entry adds to the markets still open. */
  lemma OpenNext(es: seq<Entry>, i: nat)
    requires DistinctMarkets(es) && i < |es|
    ensures Unfinished(es[i]) <==> es[i].market in OpenMarkets(es)
    ensures es[i].market !in OpenMarkets(es[..i])
    ensures OpenMarkets(es[..i + 1]) == OpenMarkets(es[..i]) + (if Unfinished(es[i]) then {es[i].market} else {})
    ensures SeqSum(es[..i + 1], One) == SeqSum(es[..i], One) + One(es[i])
  {
    assert es[..i + 1] == es[..i] + [es[i]];
    SeqSumAppend(es[..i], [es[i]], One);
    assert SeqSum([es[i]], One) == One(es[i]);
    forall m | m in OpenMarkets(es[..i]) ensures m in OpenMarkets(es[..i + 1]) && m != es[i].market {
      var k :| 0 <= k < i && Unfinished(es[..i][k]) && es[..i][k].market == m;
      assert es[..i + 1][k] == es[k];
    }
    var next := OpenMarkets(es[..i + 1]);
    forall m | m in next ensures m in OpenMarkets(es[..i]) || (Unfinished(es[i]) && m == es[i].market) {
      var k :| 0 <= k < i + 1 && Unfinished(es[..i + 1][k]) && es[..i + 1][k].market == m;
      if k < i { assert es[..i][k] == es[k]; }
    }
    if Unfinished(es[i]) { assert es[..i + 1][i] == es[i]; }
  }

  ghost predicate ReadyBelow(c: Coordinator, now: int, r: nat, k: nat, cmd: Command) {
    exists i: nat :: i < k && ReadyIn(c, now, r, i) && cmd == CommandAt(c, r, i)
  }

  predicate DistinctCommands(cmds: seq<Command>) {
    forall i, j :: 0 <= i < j < |cmds| ==> cmds[i].market != cmds[j].market
  }

  function Inserted(sorted: seq<Command>, k: nat, cmd: Command): seq<Command>
    requires k <= |sorted|
  {
    sorted[..k] + [cmd] + sorted[k..]
  }

  lemma InsertSorted(sorted: seq<Command>, k: nat, cmd: Command)
    requires k <= |sorted| && SortedByMarket(sorted)
    requires forall j :: 0 <= j < k ==> sorted[j].market < cmd.market
    requires k < |sorted| ==> cmd.market < sorted[k].market
    ensures SortedByMarket(Inserted(sorted, k, cmd))
    ensures forall x :: x in Inserted(sorted, k, cmd) <==> x in sorted || x == cmd
  {
    assert sorted == sorted[..k] + sorted[k..];
  }

  /** Insertion into a sorted list; the sort of the batch is repeated insertion. */
  method SortByMarket(cmds: seq<Command>) returns (sorted: seq<Command>)
    requires DistinctCommands(cmds)
    ensures SortedByMarket(sorted)
    ensures forall x :: x in sorted <==> x in cmds
  {
    hide Inserted;
    sorted := [];
    for n := 0 to |cmds|
      invariant SortedByMarket(sorted)
      invariant forall x :: x in sorted <==> x in cmds[..n]
    {
      var cmd := cmds[n];
      var k := 0;
      while k < |sorted| && sorted[k].market < cmd.market
        invariant 0 <= k <= |sorted|
        invariant forall j :: 0 <= j < k ==> sorted[j].market < cmd.market
      {
        k := k + 1;
      }
      assert forall j :: 0 <= j < |sorted| ==> sorted[j].market != cmd.market by {
        forall j | 0 <= j < |sorted| ensures sorted[j].market != cmd.market {
          assert sorted[j] in cmds[..n];
        }
      }
      InsertSorted(sorted, k, cmd);
      assert cmds[..n + 1] == cmds[..n] + [cmd];
      sorted := Inserted(sorted, k, cmd);
    }
    assert cmds[..|cmds|] == cmds;
  }

  lemma InPrefix(sorted: seq<Command>, k: nat, n: nat)
    ensures n < k <= |sorted| ==> sorted[n] in sorted[..k]
  {
    if n < k <= |sorted| { assert sorted[..k][n] == sorted[n]; }
  }

  lemma TruncatedIsLowest(c: Coordinator, now: int, r: nat, k: nat, sorted: seq<Command>, cmds: seq<Command>)
    requires SortedByMarket(sorted)
    requires forall j :: 0 <= j < |sorted| ==> ReadyFor(c, now, r, sorted[j])
    requires forall i: nat :: ReadyIn(c, now, r, i) ==> CommandAt(c, r, i) in sorted
    requires cmds == if |sorted| > k then sorted[..k] else sorted
    ensures LowestReady(c, now, r, k, cmds)
  {
    forall i: nat | ReadyIn(c, now, r, i) && CommandAt(c, r, i) !in cmds
      ensures |cmds| == k && forall j :: 0 <= j < |cmds| ==> cmds[j].market < CommandAt(c, r, i).market
    {
      var n :| 0 <= n < |sorted| && sorted[n] == CommandAt(c, r, i);
      InPrefix(sorted, k, n);
    }
  }

  lemma AlreadyLatched(entries: seq<Entry>, i: nat)
    requires i < |entries| && entries[i].market in Markets(entries[..i])
    ensures !DistinctMarkets(entries)
  {
    var j :| 0 <= j < i && entries[..i][j].market == entries[i].market;
    assert entries[j].market == entries[i].market;
  }

  lemma FreshOnly(entries: seq<Entry>, i: nat, now: map<nat, nat>, before: map<nat, nat>)
    requires i <= |entries|
    requires forall k :: 0 <= k < |entries| ==> entries[k].market !in before
    requires forall m :: m in now <==> m in before || m in Markets(entries[..i])
    requires forall m :: m in before && m !in Markets(entries[..i]) ==> now[m] == before[m]
    ensures now - Markets(entries[..i]) == before
  {
    forall m | m in Markets(entries[..i]) ensures m !in before {
      var k :| 0 <= k < i && entries[..i][k].market == m;
      assert entries[k].market == m;
    }
  }

  lemma LatchNext(entries: seq<Entry>, i: nat)
    requires i < |entries|
    ensures Markets(entries[..i + 1]) == Markets(entries[..i]) + {entries[i].market}
    ensures DistinctMarkets(entries[..i]) && entries[i].market !in Markets(entries[..i]) ==>
              DistinctMarkets(entries[..i + 1])
  {
    forall j | 0 <= j < i ensures entries[..i + 1][j] == entries[..i][j] {
    }
    forall m | m in Markets(entries[..i + 1]) ensures m in Markets(entries[..i]) + {entries[i].market} {
      var j :| 0 <= j < i + 1 && entries[..i + 1][j].market == m;
      if j < i { assert entries[..i][j].market == m; }
    }
    forall m | m in Markets(entries[..i]) ensures m in Markets(entries[..i + 1]) {
      var j :| 0 <= j < i && entries[..i][j].market == m;
      assert entries[..i + 1][j].market == m;
    }
    assert entries[..i + 1][i].market == entries[i].market;
    forall j | 0 <= j < i ensures entries[..i][j].market in Markets(entries[..i]) {}
  }
}
