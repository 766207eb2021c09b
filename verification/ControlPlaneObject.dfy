/** The recovery side of the control plane as the mutable object the source keeps: every handler
    is one step of the state machine of module ControlRecovery, and every reachable state
    satisfies its invariant. */
module ControlPlaneObject {
  import opened Wrappers
  import opened Sums
  import opened Recovery
  import opened RecoveryCommands
  import opened ControlRecovery
  import opened RecoveryObject

  datatype PumpCode = PumpOk | IoBackpressure | CommitFailed
  datatype PumpResult = PumpResult(code: PumpCode, pushed: nat, refused: nat)

  class ControlPlane {
    const coordinator: RecoveryCoordinator
    var universe: Option<Universe>
    var nextVersion: nat
    var stats: Telemetry
    var faulted: bool

    ghost function Here(): Plane
      reads this, coordinator
    {
      Plane(coordinator.View(), universe, nextVersion, stats, faulted)
    }

    ghost predicate Valid()
      reads this, coordinator
    {
      coordinator.Valid() && PlaneInv(Here(), coordinator.config)
    }

    constructor (config: Config)
      ensures Valid() && Here() == InitialPlane && coordinator.config == config && fresh(coordinator)
    {
      coordinator := new RecoveryCoordinator(config);
      universe := None;
      nextVersion := 1;
      stats := NoTelemetry;
      faulted := false;
      new;
      InitialPlaneInv(config);
    }

    method InstallUniverse(routes: seq<Route>, now: int) returns (version: nat)
      requires Valid()
      modifies this, coordinator
      ensures Valid()
      ensures Here() == Step(old(Here()), coordinator.config, Install(routes), now)
      ensures version == old(nextVersion) && universe == Some(Universe(version, routes))
    {
      hide PlaneInv, Supersede, SupersededOnce, SupersededIn, Coherent, Sum;
      ghost var before := Here();
      StepInv(before, coordinator.config, Install(routes), now);
      version := nextVersion;
      nextVersion := nextVersion + 1;
      assert version != 0 by { PlaneVersions(before, coordinator.config); }
      var summary := coordinator.SupersedeBefore(version, now);
      stats := stats.(incidentsSuperseded := stats.incidentsSuperseded + summary.incidents,
                      marketsSuperseded := stats.marketsSuperseded + summary.markets);
      universe := Some(Universe(version, routes));
    }

    method OnBarrierDelivered(f: BarrierFact, now: int, failAt: nat) returns (threw: bool)
      requires Valid()
      modifies this, coordinator
      ensures Valid()
      ensures Here() == Step(old(Here()), coordinator.config, BarrierArrives(f, threw), now)
      ensures old(universe).None? ==> !threw
      ensures old(universe).Some? ==>
                var v := JudgeBarrier(old(coordinator.View()), f, old(universe).value, now);
                threw == (v.Create? && (failAt < 2 + |v.entries| || !DistinctMarkets(v.entries)))
    {
      hide PlaneInv, JudgeBarrier, Recovery.ObserveBarrier, Coherent, DistinctMarkets;
      ghost var before := Here();
      threw := false;
      if universe.None? {
        stats := stats.(observationsRejected := stats.observationsRejected + 1);
      } else {
        var o;
        o, threw := coordinator.ObserveBarrier(f, universe.value, now, failAt);
        if threw {
          stats := stats.(observationsRejected := stats.observationsRejected + 1);
          faulted := true;
        } else {
          stats := AccountObservation(stats, o);
        }
      }
      StepInv(before, coordinator.config, BarrierArrives(f, threw), now);
    }

    method OnMarketRecoveryRequired(f: MarketFact, now: int, failAt: nat) returns (threw: bool)
      requires Valid()
      modifies this, coordinator
      ensures Valid()
      ensures Here() == Step(old(Here()), coordinator.config, MarketArrives(f, threw), now)
      ensures old(universe).None? ==> !threw
      ensures old(universe).Some? ==>
                threw == (failAt < 3 && JudgeMarket(old(coordinator.View()), f, old(universe).value, now).Create?)
    {
      hide PlaneInv, JudgeMarket, Recovery.ObserveMarket, Coherent;
      ghost var before := Here();
      threw := false;
      if universe.Some? {
        var o;
        o, threw := coordinator.ObserveMarket(f, universe.value, now, failAt);
        if threw {
          stats := stats.(observationsRejected := stats.observationsRejected + 1);
          faulted := true;
        } else {
          stats := AccountObservation(stats, o);
        }
      }
      StepInv(before, coordinator.config, MarketArrives(f, threw), now);
    }

    method OnRequestAccepted(f: RequestFact, now: int)
      requires Valid()
      modifies this, coordinator
      ensures Valid()
      ensures Here() == Step(old(Here()), coordinator.config, AcceptedArrives(f), now)
    {
      hide PlaneInv, Recovery.HandleAccepted, Coherent;
      StepInv(Here(), coordinator.config, AcceptedArrives(f), now);
      var result := coordinator.HandleAccepted(f, now);
      stats := AccountFact(stats, result);
    }

    method OnRequestFailed(f: RequestFact, now: int)
      requires Valid()
      modifies this, coordinator
      ensures Valid()
      ensures Here() == Step(old(Here()), coordinator.config, FailedArrives(f), now)
    {
      hide PlaneInv, Recovery.HandleFailed, Coherent;
      StepInv(Here(), coordinator.config, FailedArrives(f), now);
      var result := coordinator.HandleFailed(f, now);
      stats := AccountFact(stats, result);
    }

    method OnSnapshotApplied(f: AppliedFact, now: int)
      requires Valid()
      modifies this, coordinator
      ensures Valid()
      ensures Here() == Step(old(Here()), coordinator.config, AppliedArrives(f), now)
    {
      hide PlaneInv, Recovery.HandleApplied, Coherent;
      StepInv(Here(), coordinator.config, AppliedArrives(f), now);
      if universe.Some? {
        var result := coordinator.HandleApplied(f, universe.value, now);
        stats := AccountFact(stats, result);
      }
    }

    method ExpireAndAccount(now: int)
      requires coordinator.Valid()
      modifies this`stats, coordinator
      ensures coordinator.Valid()
      ensures Here() == ExpireAll(old(Here()), coordinator.config, now)
    {
      hide Coherent, Expire, Count;
      var timeouts := coordinator.ExpireTimeouts(now);
      stats := stats.(requestAckTimeouts := stats.requestAckTimeouts + timeouts.acks,
                      snapshotTimeouts := stats.snapshotTimeouts + timeouts.snapshots,
                      retriesScheduled := stats.retriesScheduled + timeouts.retries,
                      marketsFailed := stats.marketsFailed + timeouts.failures);
    }

    /** The push loop: `accepts` is how many commands the io queue still takes. */
    method PushCommands(batch: seq<Command>, accepts: nat, now: int) returns (result: PumpResult)
      requires coordinator.Valid()
      modifies this`stats, this`faulted, coordinator
      requires !faulted
      ensures coordinator.Valid()
      ensures Here() == SendBatch(old(Here()), batch, accepts, now)
      ensures result.code == CommitFailed ==> faulted
      ensures result.code != CommitFailed ==> faulted == old(faulted)
      ensures result.code == PumpOk ==> result.pushed == |batch|
    {
      hide Coherent, MarkEnqueued;
      ghost var before := Here();
      result := PumpResult(PumpOk, 0, 0);
      var i, room := 0, accepts;
      while i < |batch|
        invariant i <= |batch| && coordinator.Valid()
        invariant SendBatch(before, batch, accepts, now) == SendBatch(Here(), batch[i..], room, now)
        invariant result == PumpResult(PumpOk, i, 0) && faulted == old(faulted)
      {
        assert batch[i..][0] == batch[i] && batch[i..][1..] == batch[i + 1..];
        if room == 0 {
          stats := stats.(requestEnqueueFailures := stats.requestEnqueueFailures + 1);
          result := result.(code := IoBackpressure, refused := 1);
          return;
        }
        MarkRefused(coordinator.View(), batch[i], now);
        var ok := coordinator.MarkCommandEnqueued(batch[i], now);
        if !ok {
          faulted := true;
          result := result.(code := CommitFailed);
          return;
        }
        stats := stats.(requestsEnqueued := stats.requestsEnqueued + 1);
        result := result.(pushed := result.pushed + 1);
        i, room := i + 1, room - 1;
      }
    }

    /** process_recovery(): `ioReady` stands for the four io-state tests. The commit of a pushed
        command never fails, so the only fault is the one already recorded on entry. */
    method ProcessRecovery(ioReady: bool, accepts: nat, now: int) returns (result: PumpResult, batch: seq<Command>)
      requires Valid()
      modifies this`stats, this`faulted, coordinator
      ensures Valid()
      ensures Here() == Step(old(Here()), coordinator.config, Pump(ioReady, batch, accepts), now)
      ensures !old(faulted) && old(universe).Some? && ioReady ==>
                IsBatch(Expire(old(coordinator.View()), coordinator.config, now), now, MAX_COMMANDS_PER_PUMP, batch)
      ensures result.code == CommitFailed <==> old(faulted)
      ensures faulted == old(faulted)
    {
      hide PlaneInv, Coherent, Expire, IsBatch, SendBatch, ExpireAll;
      ghost var before := Here();
      result := PumpResult(PumpOk, 0, 0);
      batch := [];
      if faulted {
        result := result.(code := CommitFailed);
      } else if universe.Some? {
        ExpireInv(before, coordinator.config, now);
        ExpireAndAccount(now);
        if ioReady {
          ExpiredCoordinator(before, coordinator.config, now);
          batch := coordinator.NextPendingCommands(now, MAX_COMMANDS_PER_PUMP);
          PumpInv(before, coordinator.config, ioReady, batch, accepts, now);
          result := PushCommands(batch, accepts, now);
        }
      }
    }
  }

  lemma PlaneVersions(p: Plane, cfg: Config)
    requires PlaneInv(p, cfg)
    ensures VersionsOk(p)
  {
  }

  lemma ExpiredCoordinator(p: Plane, cfg: Config, now: int)
    ensures ExpireAll(p, cfg, now).coord == Expire(p.coord, cfg, now)
    ensures ExpireAll(p, cfg, now).faulted == p.faulted
  {
  }

  lemma MarkRefused(c: Coordinator, cmd: Command, now: int)
    ensures !MarkEnqueued(c, cmd, now).1 ==> MarkEnqueued(c, cmd, now).0 == c
  {
  }
}
