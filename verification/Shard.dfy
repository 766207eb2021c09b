/** A shard (cpp/src/shard/shard.cpp, event_store.cpp): frames and barriers popped from its queue
    become book updates, invalidations, recovery statuses and strategy messages. `accept(k)`
    answers the k-th push, and a content table says what each frame handle holds. */
module Shard {
  import opened Wrappers
  import opened MarketData
  import opened Book
  import opened Event

  datatype RunState = Uninstalled | Live | SafeToStop | Draining | Drained | ShardFaulted

  datatype Content = NoFrame | BadFrame | GoodFrame(parsed: Parsed)
  datatype Frames = Frames(content: Handle -> Content)
  datatype Answers = Answers(accept: nat -> bool)

  datatype Status =
    | RecoveryNeeded(universe: nat, incident: IncidentKey, market: nat, event: nat, reason: nat)
    | SnapshotApplied(recovery: nat, universe: nat, market: nat, transition: Transition)

  datatype StrategyMessage =
    | PairSeen(observation: Observation)
    | EventUnavailable(event: nat, market: nat, revision: nat)
    | ShardUnavailable(universe: nat)

  // `silenced` is the publication fault. `seen` is history: the messages popped since the universe
  // was installed.
  datatype ShardState = ShardState(
    run: RunState, universe: nat, shard: nat, events: seq<EventState>, pending: Option<Status>, statuses: seq<Status>,
    published: seq<StrategyMessage>, silenced: bool, nextIncident: nat, pushes: nat, seen: seq<Message>)

  function InitialShard(shard: nat): ShardState { ShardState(Uninstalled, 0, shard, [], None, [], [], false, 1, 0, []) }

  function Fault(s: ShardState): ShardState { s.(run := ShardFaulted) }

  // ------------------------------------------------------------------- statuses

  /** send_or_defer_recovery_status(). */
  function SendStatus(s: ShardState, q: Answers, st: Status): (ShardState, bool) {
    if s.pending.Some? then (s, false)
    else if q.accept(s.pushes) then (s.(pushes := s.pushes + 1, statuses := s.statuses + [st]), true)
    else (s.(pushes := s.pushes + 1, pending := Some(st)), true)
  }

  /** flush_pending_recovery_status(). */
  function FlushStatus(s: ShardState, q: Answers): (ShardState, bool) {
    if s.pending.None? then (s, true)
    else if q.accept(s.pushes)
    then (s.(pushes := s.pushes + 1, statuses := s.statuses + [s.pending.value], pending := None), true)
    else (s.(pushes := s.pushes + 1), false)
  }

  // ---------------------------------------------------------------- publication

  /** publish_strategy_message(): the first failed push silences the shard for good. */
  function Publish(s: ShardState, q: Answers, m: StrategyMessage): ShardState {
    if s.silenced then s
    else if q.accept(s.pushes) then s.(pushes := s.pushes + 1, published := s.published + [m])
    else s.(pushes := s.pushes + 1, silenced := true)
  }

  /** The publish_pair step of publish_affected_pairs(). */
  function PublishPair(s: ShardState, q: Answers, e: nat, i: nat): ShardState {
    if e >= |s.events| || PairObservation(s.events[e], i).None? then s.(silenced := true)
    else Publish(s, q, PairSeen(PairObservation(s.events[e], i).value))
  }

  /** Every pair from `i` on, until one fails. */
  function PublishFrom(s: ShardState, q: Answers, e: nat, i: nat): ShardState
    requires e < |s.events|
    decreases |s.events[e].markets| - i
  {
    if i + 1 >= |s.events[e].markets| then s
    else
      var s1 := PublishPair(s, q, e, i);
      if s1.silenced then s1 else PublishFrom(s1, q, e, i + 1)
  }

  /** publish_affected_pairs(), after a book change of market `i`. */
  function PublishAffected(s: ShardState, q: Answers, e: nat, i: nat, becameUsable: bool): ShardState
    requires e < |s.events|
  {
    if s.silenced || !s.events[e].topology.MonotonicChain? || !EventUsable(s.events[e]) then s
    else if becameUsable then PublishFrom(s, q, e, 0)
    else
      var s1 := if i > 0 then PublishPair(s, q, e, i - 1) else s;
      if s1.silenced || i + 1 >= |s.events[e].markets| then s1 else PublishPair(s1, q, e, i)
  }

  // --------------------------------------------------------------------- frames

  /** validate_handle_target(). */
  predicate FrameTarget(s: ShardState, h: Handle) {
    && h.shard == s.shard && h.universe == s.universe && h.eventIndex < |s.events|
    && var ev := s.events[h.eventIndex];
       && ev.id == h.event && ev.index == h.eventIndex && ev.topology == h.topology && h.marketIndex < |ev.markets|
       && ev.markets[h.marketIndex].id == h.market && ev.markets[h.marketIndex].index == h.marketIndex
  }

  function WithEvent(s: ShardState, e: nat, ev: EventState): ShardState
    requires e < |s.events|
  {
    s.(events := s.events[e := ev])
  }

  /** What an invalidation that changed something sends: the unavailability, then the recovery status. */
  function ReportLoss(s: ShardState, q: Answers, t: Transition, revision: nat, incident: IncidentKey, market: nat,
                      event: nat, reason: nat): ShardState {
    var s1 := if t.BecameUnusable? then Publish(s, q, EventUnavailable(event, market, revision)) else s;
    if t.NoTransition? then s1
    else
      var (s2, kept) := SendStatus(s1, q, RecoveryNeeded(s.universe, incident, market, event, reason));
      if kept then s2 else Fault(s2)
  }

  /** A book frame that is missing or cannot be parsed. */
  function LoseFrame(s: ShardState, q: Answers, h: Handle, reason: nat): ShardState
    requires FrameTarget(s, h)
  {
    var (ev, t) := InvalidateOne(s.events[h.eventIndex], h.marketIndex);
    var incident := IncidentKey(FromShard, s.shard, s.nextIncident);
    var next := if t.NoTransition? then s.nextIncident else s.nextIncident + 1;
    var s1 := WithEvent(s, h.eventIndex, ev).(nextIncident := next);
    ReportLoss(s1, q, t, ev.revision, incident, h.market, h.event, reason)
  }

  predicate AnswersRecovery(h: Handle, r: EventResult) {
    h.recovery != 0 && h.kind.SnapshotFrame? && (r.transition.Recovered? || r.transition.NoTransition?)
  }

  /** A frame that was parsed. */
  function ApplyFrame(s: ShardState, q: Answers, h: Handle, p: Parsed): ShardState
    requires FrameTarget(s, h)
  {
    var (ev, r) := ApplyEvent(s.events[h.eventIndex], h.marketIndex, p);
    var s1 := WithEvent(s, h.eventIndex, ev);
    var s2 := if r.transition.BecameUnusable? then Publish(s1, q, EventUnavailable(h.event, h.market, ev.revision))
              else s1;
    if !r.disposition.Applied? then s2
    else
      var s3 := if r.bookChanged then PublishAffected(s2, q, h.eventIndex, h.marketIndex, r.becameUsable) else s2;
      if !AnswersRecovery(h, r) then s3
      else
        var (s4, kept) := SendStatus(s3, q, SnapshotApplied(h.recovery, h.universe, h.market, r.transition));
        if kept then s4 else Fault(s4)
  }

  /** handle_message(FrameHandle) in a live shard. */
  function OnFrame(s: ShardState, q: Answers, f: Frames, h: Handle): ShardState {
    if !FrameTarget(s, h) then Fault(s)
    else match f.content(h)
      case NoFrame => if IsBook(h.kind) then LoseFrame(s, q, h, SHARD_FRAME_MISSING) else s
      case BadFrame => if IsBook(h.kind) then LoseFrame(s, q, h, SHARD_PARSE_FAILURE) else s
      case GoodFrame(p) => ApplyFrame(s, q, h, p)
  }

  // ------------------------------------------------------------------- barriers

  predicate BarrierTarget(s: ShardState, b: Barrier) {
    && b.reason != NO_REASON && b.universe == s.universe && b.shard == s.shard && b.eventIndex < |s.events|
    && s.events[b.eventIndex].id == b.event && b.marketIndex < |s.events[b.eventIndex].markets|
    && s.events[b.eventIndex].markets[b.marketIndex].id == b.market
  }

  /** handle_message(MarketInvalidationBarrier). */
  function OnBarrier(s: ShardState, q: Answers, b: Barrier): ShardState {
    if !BarrierTarget(s, b) then Fault(s)
    else
      var (ev, t) := InvalidateOne(s.events[b.eventIndex], b.marketIndex);
      ReportLoss(WithEvent(s, b.eventIndex, ev), q, t, ev.revision, b.incident, b.market, b.event, b.reason)
  }

  /** EventStore::invalidate_all_markets() on the first `n` events. */
  function InvalidateEvents(events: seq<EventState>, n: nat): (r: (seq<EventState>, Summary))
    requires n <= |events|
    ensures |r.0| == |events|
  {
    if n == 0 then (events, Summary(0, 0, 0))
    else
      var (es, c) := InvalidateEvents(events, n - 1);
      var (ev, d) := InvalidateFirst(es[n - 1], |es[n - 1].markets|);
      (es[n - 1 := ev], Summary(c.unusable + d.unusable, c.required + d.required, c.awaiting + d.awaiting))
  }

  /** handle_message(OrderBookSubscriptionInvalidationBarrier). */
  function OnSubscription(s: ShardState, q: Answers, b: SubscriptionBarrier): ShardState {
    if b.reason == NO_REASON || b.universe != s.universe then Fault(s)
    else
      var (events, summary) := InvalidateEvents(s.events, |s.events|);
      var s1 := s.(events := events);
      if summary.unusable > 0 then Publish(s1, q, ShardUnavailable(s.universe)) else s1
  }

  /** dispatch_message(); a draining shard only hands frames off. */
  function Dispatch(s: ShardState, q: Answers, f: Frames, m: Message): ShardState {
    match m
    case Frame(h) => if s.run.Draining? then s else OnFrame(s, q, f, h)
    case MarketBarrier(b) => OnBarrier(s, q, b)
    case Subscription(b) => OnSubscription(s, q, b)
  }

  predicate Pumps(run: RunState) { run.Live? || run.SafeToStop? || run.Draining? }

  /** pump_once(), with the message the queue offers, if any. */
  function Pump(s: ShardState, q: Answers, f: Frames, input: Option<Message>): ShardState {
    var (s1, ok) := FlushStatus(s, q);
    if !ok || !Pumps(s1.run) then s1
    else match input
      case None => if s1.run.Draining? then s1.(run := Drained) else s1
      case Some(m) => Dispatch(s1, q, f, m).(seen := s1.seen + [m])
  }

  // ------------------------------------------------------------------- commands

  datatype Command =
    | Install(universe: nat, target: nat, events: seq<EventState>)
    | PrepareStop(universe: nat, target: nat)
    | Drain(universe: nat, target: nat)
    | Resume(universe: nat, target: nat)

  function Move(s: ShardState, universe: nat, target: nat, from: RunState, to: RunState): ShardState {
    if target != s.shard || s.universe == 0 || universe != s.universe || s.run != from then Fault(s) else s.(run := to)
  }

  /** handle_operator_command(). */
  function Obey(s: ShardState, c: Command): ShardState {
    match c
    case Install(universe, target, events) =>
      if target != s.shard || universe == 0 || !(s.run.Uninstalled? || s.run.Drained?)
          || (s.run.Drained? && universe <= s.universe) then Fault(s)
      else s.(run := Live, universe := universe, events := events, seen := [])
    case PrepareStop(universe, target) => Move(s, universe, target, Live, SafeToStop)
    case Drain(universe, target) => Move(s, universe, target, SafeToStop, Draining)
    case Resume(universe, target) => Move(s, universe, target, SafeToStop, Live)
  }

  datatype Step = Pumped(input: Option<Message>) | Obeyed(command: Command)

  function StepOf(s: ShardState, q: Answers, f: Frames, st: Step): ShardState {
    match st
    case Pumped(input) => Pump(s, q, f, input)
    case Obeyed(c) => Obey(s, c)
  }

  /** Events as the universe builder makes them: blank books, distinct ids. */
  predicate FreshEvents(events: seq<EventState>) {
    && (forall e, i :: 0 <= e < |events| && 0 <= i < |events[e].markets| ==>
          events[e].markets[i].book.sync.AwaitingInitial? && BookOk(events[e].markets[i].book))
    && (forall e, e' :: 0 <= e < e' < |events| ==> events[e].id != events[e'].id)
  }

  predicate Admissible(st: Step) { st.Obeyed? && st.command.Install? ==> FreshEvents(st.command.events) }

  /** Parsing yields the kind of event the frame announces, with 64-bit quantities. */
  ghost predicate Sensible(f: Frames) {
    forall h: Handle :: SensibleFor(f, h)
  }

  predicate SensibleFor(f: Frames, h: Handle) {
    f.content(h).GoodFrame? ==>
      if IsBook(h.kind) then f.content(h).parsed.BookUpdate? && WordEvent(f.content(h).parsed.event)
      else !f.content(h).parsed.BookUpdate?
  }
}
