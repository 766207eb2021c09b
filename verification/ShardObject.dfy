/** A shard as the mutable object the source keeps: it owns its events, and each method runs one
    operation of module Shard in place. */
module ShardObject {
  import opened Wrappers
  import opened MarketData
  import opened Book
  import opened Event
  import opened EventObject
  import opened Shard
  import opened ShardTracking
  import opened ShardPublication
  import opened EndToEnd

  ghost function StatesOf(es: seq<EventBook>): (r: seq<EventState>)
    reads es
    ensures |r| == |es| && forall i :: 0 <= i < |es| ==> r[i] == es[i].State()
  {
    seq(|es|, i requires 0 <= i < |es| reads es => es[i].State())
  }

  class ShardWorker {
    const shard: nat
    const answers: Answers
    const frames: Frames
    var run: RunState
    var universe: nat
    var events: seq<EventBook>
    var pending: Option<Status>
    var statuses: seq<Status>
    var published: seq<StrategyMessage>
    var silenced: bool
    var nextIncident: nat
    var pushes: nat
    ghost var seen: seq<Message>

    ghost function View(): ShardState
      reads this, events
    {
      ShardState(run, universe, shard, StatesOf(events), pending, statuses, published, silenced, nextIncident, pushes,
                 seen)
    }

    ghost predicate Distinct()
      reads this
    {
      forall i, j :: 0 <= i < j < |events| ==> events[i] != events[j]
    }

    ghost predicate Valid()
      reads this, events
    {
      Distinct() && Sensible(frames) && ShardInv(View(), frames)
    }

    constructor (shard: nat, answers: Answers, frames: Frames)
      requires Sensible(frames)
      ensures Valid() && View() == InitialShard(shard) && events == []
    {
      this.shard, this.answers, this.frames := shard, answers, frames;
      run, universe, events := Uninstalled, 0, [];
      pending, statuses, published, silenced := None, [], [], false;
      nextIncident, pushes, seen := 1, 0, [];
      new;
      InitialShardInv(shard, frames);
      assert View() == InitialShard(shard);
    }

    // ----------------------------------------------------------------- statuses

    method SendOrDefer(st: Status) returns (kept: bool)
      modifies this`pushes, this`statuses, this`pending
      ensures (View(), kept) == SendStatus(old(View()), answers, st)
    {
      if pending.Some? {
        return false;
      }
      if answers.accept(pushes) {
        statuses := statuses + [st];
      } else {
        pending := Some(st);
      }
      pushes := pushes + 1;
      return true;
    }

    method FlushPending() returns (ok: bool)
      modifies this`pushes, this`statuses, this`pending
      ensures (View(), ok) == FlushStatus(old(View()), answers)
    {
      if pending.None? {
        return true;
      }
      ok := answers.accept(pushes);
      pushes := pushes + 1;
      if ok {
        statuses := statuses + [pending.value];
        pending := None;
      }
    }

    // -------------------------------------------------------------- publication

    method PublishMessage(m: StrategyMessage)
      modifies this`pushes, this`published, this`silenced
      ensures View() == Publish(old(View()), answers, m)
    {
      if silenced {
        return;
      }
      if answers.accept(pushes) {
        published := published + [m];
      } else {
        silenced := true;
      }
      pushes := pushes + 1;
    }

    method PublishPairOf(e: nat, i: nat)
      requires e < |events| && EventOk(events[e].State())
      modifies this`pushes, this`published, this`silenced
      ensures View() == PublishPair(old(View()), answers, e, i)
    {
      hide PairObservation, Publish;
      var o := events[e].BuildPair(i);
      if o.None? {
        silenced := true;
      } else {
        PublishMessage(PairSeen(o.value));
      }
    }

    /** publish_affected_pairs(). */
    method PublishAffectedPairs(e: nat, i: nat, becameUsable: bool)
      requires e < |events| && EventOk(events[e].State())
      modifies this`pushes, this`published, this`silenced
      ensures View() == PublishAffected(old(View()), answers, e, i, becameUsable)
    {
      hide PublishPair, EventUsable;
      var usable := events[e].IsUsable();
      if silenced || !events[e].topology.MonotonicChain? || !usable {
        return;
      }
      var n := |events[e].markets|;
      if becameUsable {
        PublishEveryPair(e);
        return;
      }
      if i > 0 {
        PublishPairOf(e, i - 1);
        if silenced {
          return;
        }
      }
      if i + 1 < n {
        PublishPairOf(e, i);
      }
    }

    method PublishEveryPair(e: nat)
      requires e < |events| && EventOk(events[e].State()) && !silenced
      modifies this`pushes, this`published, this`silenced
      ensures View() == PublishFrom(old(View()), answers, e, 0)
    {
      hide PublishPair;
      var i := 0;
      while i + 1 < |events[e].markets|
        invariant !silenced && PublishFrom(old(View()), answers, e, 0) == PublishFrom(View(), answers, e, i)
        invariant StatesOf(events) == old(StatesOf(events))
        decreases |events[e].markets| - i
      {
        PublishPairOf(e, i);
        if silenced {
          return;
        }
        i := i + 1;
      }
    }

    // ------------------------------------------------------------------- frames

    method FaultShard()
      modifies this`run
      ensures View() == Fault(old(View()))
    {
      run := ShardFaulted;
    }

    method Report(t: Transition, revision: nat, incident: IncidentKey, market: nat, event: nat, reason: nat)
      modifies this`pushes, this`published, this`silenced, this`statuses, this`pending, this`run
      ensures View() == ReportLoss(old(View()), answers, t, revision, incident, market, event, reason)
    {
      hide Publish, SendStatus;
      PublishKeeps(View(), answers, EventUnavailable(event, market, revision));
      if t.BecameUnusable? {
        PublishMessage(EventUnavailable(event, market, revision));
      }
      if !t.NoTransition? {
        var kept := SendOrDefer(RecoveryNeeded(universe, incident, market, event, reason));
        if !kept {
          FaultShard();
        }
      }
    }

    /** Invalidate one market of one event and report what changed. */
    method InvalidateAndReport(e: nat, i: nat, incident: IncidentKey, own: bool, market: nat, event: nat, reason: nat)
      requires Distinct() && e < |events| && i < |events[e].markets|
      modifies this`pushes, this`published, this`silenced, this`statuses, this`pending, this`run, this`nextIncident,
          events
      ensures var (ev, t) := InvalidateOne(old(events[e].State()), i);
              View() == ReportLoss(WithEvent(old(View()), e, ev).(
                                     nextIncident := if own && !t.NoTransition? then old(nextIncident) + 1
                                     else old(nextIncident)),
                                   answers, t, ev.revision, incident, market, event, reason)
      ensures Distinct() && events == old(events)
    {
      hide ReportLoss, InvalidateOne;
      ghost var before := StatesOf(events);
      var t := events[e].InvalidateMarket(i);
      assert StatesOf(events) == before[e := events[e].State()];
      if own && !t.NoTransition? {
        nextIncident := nextIncident + 1;
      }
      Report(t, events[e].revision, incident, market, event, reason);
    }

    method ApplyParsed(h: Handle, p: Parsed)
      requires Distinct() && FrameTarget(View(), h) && EventOk(events[h.eventIndex].State())
      requires (p.BookUpdate? ==> WordEvent(p.event))
      modifies this`pushes, this`published, this`silenced, this`statuses, this`pending, this`run, events
      ensures View() == ApplyFrame(old(View()), answers, h, p)
      ensures Distinct() && events == old(events)
    {
      ghost var before := StatesOf(events);
      ghost var s0 := View();
      ApplyAdvances(events[h.eventIndex].State(), h.marketIndex, p);
      hide ApplyEvent, PublishAffected, Publish, SendStatus, EventOk, WordEvent, FrameTarget;
      var r := events[h.eventIndex].Apply(h.marketIndex, p);
      ghost var ev := events[h.eventIndex].State();
      assert StatesOf(events) == before[h.eventIndex := ev];
      assert View() == WithEvent(s0, h.eventIndex, ev);
      var m := EventUnavailable(h.event, h.market, events[h.eventIndex].revision);
      PublishKeeps(View(), answers, m);
      if r.transition.BecameUnusable? {
        PublishMessage(m);
      }
      if r.disposition.Applied? {
        if r.bookChanged {
          PublishAffectedPairs(h.eventIndex, h.marketIndex, r.becameUsable);
        }
        if AnswersRecovery(h, r) {
          var kept := SendOrDefer(SnapshotApplied(h.recovery, h.universe, h.market, r.transition));
          if !kept {
            FaultShard();
          }
        }
      }
    }

    method MatchesTarget(h: Handle) returns (ok: bool)
      ensures ok == FrameTarget(View(), h)
    {
      if h.shard != shard || h.universe != universe || h.eventIndex >= |events| {
        return false;
      }
      var ev := events[h.eventIndex];
      if ev.id != h.event || ev.index != h.eventIndex || ev.topology != h.topology || h.marketIndex >= |ev.markets| {
        return false;
      }
      return ev.markets[h.marketIndex].id == h.market && ev.markets[h.marketIndex].index == h.marketIndex;
    }

    /** handle_message(FrameHandle) in a live shard. */
    method HandleFrame(h: Handle)
      requires Valid()
      modifies this`pushes, this`published, this`silenced, this`statuses, this`pending, this`run, this`nextIncident,
          events
      ensures View() == OnFrame(old(View()), answers, frames, h)
      ensures Distinct() && events == old(events)
    {
      hide ApplyFrame, ReportLoss, Coherent, TracksAt;
      assert SensibleFor(frames, h);
      var ok := MatchesTarget(h);
      if !ok {
        FaultShard();
        return;
      }
      assert EventOk(View().events[h.eventIndex]);
      match frames.content(h) {
        case GoodFrame(p) =>
          SensibleWord(frames, h);
          ApplyParsed(h, p);
        case NoFrame =>
          if IsBook(h.kind) {
            InvalidateAndReport(h.eventIndex, h.marketIndex, IncidentKey(FromShard, shard, nextIncident), true,
                                h.market, h.event, SHARD_FRAME_MISSING);
          }
        case BadFrame =>
          if IsBook(h.kind) {
            InvalidateAndReport(h.eventIndex, h.marketIndex, IncidentKey(FromShard, shard, nextIncident), true,
                                h.market, h.event, SHARD_PARSE_FAILURE);
          }
      }
    }

    // ----------------------------------------------------------------- barriers

    method HandleBarrier(b: Barrier)
      requires Distinct()
      modifies this`pushes, this`published, this`silenced, this`statuses, this`pending, this`run, this`nextIncident,
          events
      ensures View() == OnBarrier(old(View()), answers, b)
      ensures Distinct() && events == old(events)
    {
      hide ReportLoss;
      if b.reason == NO_REASON || b.universe != universe || b.shard != shard || b.eventIndex >= |events| ||
         events[b.eventIndex].id != b.event || b.marketIndex >= |events[b.eventIndex].markets| ||
         events[b.eventIndex].markets[b.marketIndex].id != b.market {
        FaultShard();
        return;
      }
      InvalidateAndReport(b.eventIndex, b.marketIndex, b.incident, false, b.market, b.event, b.reason);
    }

    /** EventStore::invalidate_all_markets(). */
    method InvalidateEverything() returns (summary: Summary)
      requires Distinct()
      modifies events
      ensures (StatesOf(events), summary) == InvalidateEvents(old(StatesOf(events)), |events|)
    {
      hide InvalidateFirst;
      ghost var before := StatesOf(events);
      summary := Summary(0, 0, 0);
      for e := 0 to |events|
        invariant (StatesOf(events), summary) == InvalidateEvents(before, e)
      {
        ghost var now := StatesOf(events);
        var c := events[e].InvalidateAllMarkets();
        assert StatesOf(events) == now[e := events[e].State()];
        summary := Summary(summary.unusable + c.unusable, summary.required + c.required, summary.awaiting + c.awaiting);
      }
    }

    method HandleSubscription(b: SubscriptionBarrier)
      requires Distinct()
      modifies this`pushes, this`published, this`silenced, this`run, events
      ensures View() == OnSubscription(old(View()), answers, b)
      ensures Distinct() && events == old(events)
    {
      hide InvalidateEvents, Publish;
      if b.reason == NO_REASON || b.universe != universe {
        FaultShard();
        return;
      }
      var summary := InvalidateEverything();
      if summary.unusable > 0 {
        PublishMessage(ShardUnavailable(universe));
      }
    }

    // ------------------------------------------------------------------- pumping

    method DispatchMessage(m: Message)
      requires Valid()
      modifies this`pushes, this`published, this`silenced, this`statuses, this`pending, this`run, this`nextIncident,
          events
      ensures View() == Dispatch(old(View()), answers, frames, m)
      ensures Distinct() && events == old(events)
    {
      hide ShardInv, OnFrame, OnBarrier, OnSubscription, Sensible;
      match m {
        case Frame(h) =>
          if !run.Draining? {
            HandleFrame(h);
          }
        case MarketBarrier(b) => HandleBarrier(b);
        case Subscription(b) => HandleSubscription(b);
      }
    }

    /** pump_once(); `input` is what the router's queue offers. */
    method PumpOnce(input: Option<Message>) returns (popped: bool)
      requires Valid()
      modifies this, events
      ensures Valid() && events == old(events)
      ensures View() == StepOf(old(View()), answers, frames, Pumped(input))
      ensures popped <==> input.Some? && FlushStatus(old(View()), answers).1 && Pumps(old(run))
    {
      hide ShardInv, Dispatch, FlushStatus, Sensible;
      ghost var s0 := View();
      ShardStepInv(s0, answers, frames, Pumped(input));
      FlushKeepsInv(s0, answers, frames);
      popped := false;
      var ok := FlushPending();
      if ok && Pumps(run) {
        if input.Some? {
          popped := true;
          ghost var s1 := View();
          DispatchMessage(input.value);
          seen := seen + [input.value];
          assert s1.seen == FlushStatus(s0, answers).0.seen;
        } else if run.Draining? {
          run := Drained;
        }
      }
    }

    /** An install command: fresh objects for the events of a universe. */
    method InstallEvents(states: seq<EventState>)
      modifies this`events
      ensures StatesOf(events) == states && Distinct() && fresh(events)
    {
      var es: seq<EventBook> := [];
      for k := 0 to |states|
        invariant |es| == k && fresh(es) && StatesOf(es) == states[..k]
        invariant forall i, j :: 0 <= i < j < |es| ==> es[i] != es[j]
      {
        var ev := new EventBook(states[k]);
        es := es + [ev];
      }
      events := es;
      assert states[..|states|] == states;
    }

    method HandleCommand(c: Command)
      requires Valid() && Admissible(Obeyed(c))
      modifies this`run, this`universe, this`events, this`seen
      ensures Valid() && (events == old(events) || fresh(events))
      ensures View() == StepOf(old(View()), answers, frames, Obeyed(c))
    {
      hide ShardInv, FreshEvents;
      ShardStepInv(View(), answers, frames, Obeyed(c));
      match c {
        case Install(newUniverse, target, states) =>
          if target != shard || newUniverse == 0 || !(run.Uninstalled? || run.Drained?)
              || (run.Drained? && newUniverse <= universe) {
            FaultShard();
          } else {
            InstallEvents(states);
            universe, run, seen := newUniverse, Live, [];
          }
        case PrepareStop(u, target) => MoveTo(u, target, Live, SafeToStop);
        case Drain(u, target) => MoveTo(u, target, SafeToStop, Draining);
        case Resume(u, target) => MoveTo(u, target, SafeToStop, Live);
      }
    }

    method MoveTo(u: nat, target: nat, from: RunState, to: RunState)
      modifies this`run
      ensures View() == Move(old(View()), u, target, from, to)
    {
      if target != shard || universe == 0 || u != universe || run != from {
        FaultShard();
      } else {
        run := to;
      }
    }
  }

  lemma SensibleWord(f: Frames, h: Handle)
    requires SensibleFor(f, h) && f.content(h).GoodFrame?
    ensures f.content(h).parsed.BookUpdate? ==> WordEvent(f.content(h).parsed.event)
  {
  }

  lemma FlushKeepsInv(s: ShardState, q: Answers, f: Frames)
    requires ShardInv(s, f)
    ensures ShardInv(FlushStatus(s, q).0, f)
  {
    var s1 := FlushStatus(s, q).0;
    assert Coherent(s1) by { hide Latest, ChainReady; }
    hide Coherent;
    SameBooks(s, s1, f);
  }
}
