/** The router (cpp/src/router/router.cpp, router.hpp) and the loop of its thread. Every push to a
    queue may succeed or fail: `accept(k)` answers the k-th attempt. */
module Router {
  import opened Wrappers
  import opened MarketData

  // `present` says which shard queues are wired, `control` whether the control queue is.
  datatype Wiring = Wiring(present: seq<bool>, control: bool)

  datatype Pending = PendingMarket(barrier: Barrier) | PendingSubscription(everything: SubscriptionBarrier, next: nat)

  // What one input adds to the shard queues.
  datatype Contribution = Nothing | ToShard(shard: nat, message: Message) | ToAll(everything: SubscriptionBarrier)

  // `shards`, `facts`, `logger`, `recycled` and `leaked` are what was pushed or lost so far;
  // `inputs` and `given` are history: the inputs taken and what each contributes.
  datatype RouterState = RouterState(
    pending: Option<Pending>, fact: Option<SubscriptionBarrier>, nextIncident: nat, pushes: nat,
    shards: seq<seq<Message>>, facts: seq<SubscriptionBarrier>, logger: seq<Handle>, recycled: seq<Handle>,
    leaked: seq<Handle>,
    stopped: bool, inputs: seq<Message>, given: seq<Contribution>)

  datatype Answers = Answers(accept: nat -> bool)
  datatype Result = Completed | Blocked | Faulted
  datatype Delivery = Delivered | DeliveryBlocked | InvalidTarget
  datatype Enqueue = Enqueued | Full | BadTarget

  function InitialRouter(n: nat): RouterState {
    RouterState(None, None, 1, 0, seq(n, i => []), [], [], [], [], false, [], [])
  }

  predicate ValidTarget(cfg: Wiring, s: RouterState, shard: nat) {
    shard < |s.shards| && shard < |cfg.present| && cfg.present[shard]
  }

  // -------------------------------------------------------------------- pushes

  function PushShard(s: RouterState, q: Answers, shard: nat, m: Message): (RouterState, bool)
    requires shard < |s.shards|
  {
    if q.accept(s.pushes) then
      (s.(pushes := s.pushes + 1, shards := s.shards[shard := s.shards[shard] + [m]]), true)
    else (s.(pushes := s.pushes + 1), false)
  }

  function TryRoute(s: RouterState, q: Answers, cfg: Wiring, h: Handle): (RouterState, Enqueue) {
    if !ValidTarget(cfg, s, h.shard) then (s, BadTarget)
    else
      var (s1, ok) := PushShard(s, q, h.shard, Frame(h));
      (s1, if ok then Enqueued else Full)
  }

  /** terminal_handoff(): the logger, else the recycle queue, else the handle is leaked. */
  function Handoff(s: RouterState, q: Answers, h: Handle): (RouterState, bool) {
    if q.accept(s.pushes) then (s.(pushes := s.pushes + 1, logger := s.logger + [h]), true)
    else if q.accept(s.pushes + 1) then (s.(pushes := s.pushes + 2, recycled := s.recycled + [h]), true)
    else (s.(pushes := s.pushes + 2, leaked := s.leaked + [h]), false)
  }

  // ------------------------------------------------------------------ barriers

  function RouteMarket(s: RouterState, q: Answers, cfg: Wiring, b: Barrier): (RouterState, Delivery) {
    if b.reason == NO_REASON || !ValidTarget(cfg, s, b.shard) then (s, InvalidTarget)
    else
      var (s1, ok) := PushShard(s, q, b.shard, MarketBarrier(b));
      (s1, if ok then Delivered else DeliveryBlocked)
  }

  /** The loop over shard queues from `next` on. */
  function Broadcast(s: RouterState, q: Answers, cfg: Wiring, b: SubscriptionBarrier, next: nat)
    : (RouterState, nat, Delivery)
    decreases |s.shards| - next
  {
    if next >= |s.shards| then (s, next, Delivered)
    else if !ValidTarget(cfg, s, next) then (s, next, InvalidTarget)
    else
      var (s1, ok) := PushShard(s, q, next, Subscription(b));
      if ok then Broadcast(s1, q, cfg, b, next + 1) else (s1, next, DeliveryBlocked)
  }

  function RouteSubscription(s: RouterState, q: Answers, cfg: Wiring, b: SubscriptionBarrier, next: nat)
    : (RouterState, nat, Delivery)
  {
    if b.reason == NO_REASON || |s.shards| == 0 || next > |s.shards| then (s, next, InvalidTarget)
    else Broadcast(s, q, cfg, b, next)
  }

  /** finish_subscription_barrier(): the recovery fact goes out, or waits. */
  function Finish(s: RouterState, q: Answers, cfg: Wiring, b: SubscriptionBarrier): (RouterState, Result) {
    if !cfg.control then (s, Faulted)
    else if q.accept(s.pushes) then (s.(pushes := s.pushes + 1, facts := s.facts + [b]), Completed)
    else (s.(pushes := s.pushes + 1, fact := Some(b)), Blocked)
  }

  function BeginMarket(s: RouterState, q: Answers, cfg: Wiring, b: Barrier): (RouterState, Result) {
    var (s1, d) := RouteMarket(s, q, cfg, b);
    match d
    case Delivered => (s1, Completed)
    case DeliveryBlocked => (s1.(pending := Some(PendingMarket(b))), Blocked)
    case InvalidTarget => (s1, Faulted)
  }

  function BeginSubscription(s: RouterState, q: Answers, cfg: Wiring, b: SubscriptionBarrier): (RouterState, Result) {
    var (s1, next, d) := RouteSubscription(s, q, cfg, b, 0);
    match d
    case Delivered => Finish(s1, q, cfg, b)
    case DeliveryBlocked => (s1.(pending := Some(PendingSubscription(b, next))), Blocked)
    case InvalidTarget => (s1, Faulted)
  }

  /** The barrier that takes the place of a lost book frame. */
  function BarrierFor(h: Handle, id: nat): Barrier {
    Barrier(h.universe, IncidentKey(FromRouter, 0, id), h.sid, h.sequence, h.market, h.event, h.shard, h.eventIndex,
            h.marketIndex,
            ROUTER_TO_SHARD_DELIVERY_LOSS)
  }

  // ------------------------------------------------------------------- routing

  function Note(s: RouterState, m: Message, c: Contribution): RouterState {
    s.(inputs := s.inputs + [m], given := s.given + [c])
  }

  /** route_frame(). */
  function RouteFrame(s: RouterState, q: Answers, cfg: Wiring, h: Handle): (RouterState, Result) {
    var (s1, e) := TryRoute(s, q, cfg, h);
    match e
    case Enqueued => (Note(s1, Frame(h), ToShard(h.shard, Frame(h))), Completed)
    case BadTarget => (Note(Handoff(s1, q, h).0, Frame(h), Nothing), Faulted)
    case Full =>
      var (s2, kept) := Handoff(s1, q, h);
      if !kept then (Note(s2, Frame(h), Nothing), Faulted)
      else if !IsBook(h.kind) then (Note(s2, Frame(h), Nothing), Completed)
      else
        var b := BarrierFor(h, s2.nextIncident);
        BeginMarket(Note(s2.(nextIncident := s2.nextIncident + 1), Frame(h), ToShard(h.shard, MarketBarrier(b))), q,
                    cfg, b)
  }

  /** route_message(). */
  function RouteMessage(s: RouterState, q: Answers, cfg: Wiring, m: Message): (RouterState, Result) {
    if s.pending.Some? || s.fact.Some? then (s, Blocked)
    else match m
      case Frame(h) => RouteFrame(s, q, cfg, h)
      case MarketBarrier(b) => BeginMarket(Note(s, m, ToShard(b.shard, m)), q, cfg, b)
      case Subscription(b) => BeginSubscription(Note(s, m, ToAll(b)), q, cfg, b)
  }

  /** flush_pending_barrier(). */
  function Flush(s: RouterState, q: Answers, cfg: Wiring): (RouterState, Result) {
    if s.fact.Some? then
      if cfg.control && q.accept(s.pushes)
      then (s.(pushes := s.pushes + 1, facts := s.facts + [s.fact.value], fact := None), Completed)
      else (s.(pushes := s.pushes + 1), Blocked)
    else match s.pending
      case None => (s, Completed)
      case Some(PendingMarket(b)) =>
        var (s1, d) := RouteMarket(s, q, cfg, b);
        (match d
         case Delivered => (s1.(pending := None), Completed)
         case DeliveryBlocked => (s1, Blocked)
         case InvalidTarget => (s1, Faulted))
      case Some(PendingSubscription(b, next)) =>
        var (s1, next', d) := RouteSubscription(s, q, cfg, b, next);
        (match d
         case Delivered => Finish(s1.(pending := None), q, cfg, b)
         case DeliveryBlocked => (s1.(pending := Some(PendingSubscription(b, next'))), Blocked)
         case InvalidTarget => (s1, Faulted))
  }

  /** One turn of the router thread, with the message its input queue gives, if any. */
  function Turn(s: RouterState, q: Answers, cfg: Wiring, input: Option<Message>): RouterState {
    if s.stopped then s
    else
      var (s1, r) := Flush(s, q, cfg);
      match r
      case Faulted => s1.(stopped := true)
      case Blocked => s1
      case Completed =>
        if input.None? then s1
        else
          var (s2, r2) := RouteMessage(s1, q, cfg, input.value);
          if r2.Faulted? then s2.(stopped := true) else s2
  }

  // ----------------------------------------------------------------- invariant

  /** What an input may contribute: itself; or, for a lost frame, a barrier in its place when it
      carries book data and nothing otherwise. */
  predicate Allowed(m: Message, c: Contribution) {
    match m
    case Frame(h) =>
      c == ToShard(h.shard, m) ||
      (if IsBook(h.kind) then c.ToShard? && c.shard == h.shard && c.message.MarketBarrier? &&
                              c.message.barrier == BarrierFor(h, c.message.barrier.incident.id)
       else c == Nothing)
    case MarketBarrier(b) => c == ToShard(b.shard, m)
    case Subscription(b) => c == ToAll(b)
  }

  function Part(c: Contribution, j: nat): seq<Message> {
    match c
    case Nothing => []
    case ToShard(shard, m) => if shard == j then [m] else []
    case ToAll(b) => [Subscription(b)]
  }

  /** The in-order concatenation of the contributions to shard `j`. */
  function Project(given: seq<Contribution>, j: nat): seq<Message> {
    if given == [] then [] else Project(given[..|given| - 1], j) + Part(given[|given| - 1], j)
  }

  /** What a pending barrier still owes shard `j`. */
  function Owed(pending: Option<Pending>, j: nat): seq<Message> {
    match pending
    case None => []
    case Some(PendingMarket(b)) => if b.shard == j then [MarketBarrier(b)] else []
    case Some(PendingSubscription(b, next)) => if next <= j then [Subscription(b)] else []
  }

  function FactsOf(given: seq<Contribution>): seq<SubscriptionBarrier> {
    if given == [] then []
    else FactsOf(given[..|given| - 1]) + if given[|given| - 1].ToAll? then [given[|given| - 1].everything] else []
  }

  function OwedFacts(s: RouterState): seq<SubscriptionBarrier> {
    if s.fact.Some? then [s.fact.value]
    else match s.pending
      case Some(PendingSubscription(b, _)) => [b]
      case _ => []
  }

  function FramesOf(ms: seq<Message>): multiset<Handle> {
    if ms == [] then multiset{}
    else FramesOf(ms[..|ms| - 1]) + match ms[|ms| - 1] case Frame(h) => multiset{h} case _ => multiset{}
  }

  function AllFrames(shards: seq<seq<Message>>): multiset<Handle> {
    if shards == [] then multiset{} else AllFrames(shards[..|shards| - 1]) + FramesOf(shards[|shards| - 1])
  }

  /** Every frame taken in is in exactly one place. */
  predicate HandlesConserved(s: RouterState) {
    FramesOf(s.inputs) == AllFrames(s.shards) + multiset(s.logger) + multiset(s.recycled) + multiset(s.leaked)
  }

  predicate Delivering(s: RouterState) {
    && |s.inputs| == |s.given|
    && (forall j: nat :: j < |s.shards| ==> s.shards[j] + Owed(s.pending, j) == Project(s.given, j))
    && s.facts + OwedFacts(s) == FactsOf(s.given)
    && !(s.pending.Some? && s.fact.Some?)
    && (s.pending.Some? && s.pending.value.PendingSubscription? ==> s.pending.value.next <= |s.shards|)
    && (forall i :: 0 <= i < |s.inputs| ==> Allowed(s.inputs[i], s.given[i]))
  }

  predicate RouterInv(s: RouterState) { HandlesConserved(s) && (!s.stopped ==> Delivering(s) && s.leaked == []) }

  // -------------------------------------------------------------------- pushes

  lemma {:induction false} FramesSnoc(ms: seq<Message>, m: Message)
    ensures FramesOf(ms + [m]) == FramesOf(ms) + FramesOf([m])
  {
    assert (ms + [m])[..|ms|] == ms && [m][..0] == [];
  }

  lemma {:induction false} AllFramesPush(shards: seq<seq<Message>>, j: nat, m: Message)
    requires j < |shards|
    ensures AllFrames(shards[j := shards[j] + [m]]) == AllFrames(shards) + FramesOf([m])
  {
    var n := |shards| - 1;
    var after := shards[j := shards[j] + [m]];
    if j == n {
      assert after[..n] == shards[..n];
      FramesSnoc(shards[j], m);
    } else {
      assert after[..n] == shards[..n][j := shards[..n][j] + [m]];
      AllFramesPush(shards[..n], j, m);
    }
  }

  lemma ProjectSnoc(given: seq<Contribution>, c: Contribution, j: nat)
    ensures Project(given + [c], j) == Project(given, j) + Part(c, j)
    ensures FactsOf(given + [c]) == FactsOf(given) + if c.ToAll? then [c.everything] else []
  {
    assert (given + [c])[..|given|] == given;
  }

  // ------------------------------------------------------------- conservation

  /** Only the shard queues, the push count and the pending barrier may have changed, and no frame
      was added. */
  predicate OnlyBarriers(s: RouterState, s': RouterState) {
    && s'.inputs == s.inputs && s'.given == s.given && s'.logger == s.logger && s'.recycled == s.recycled
    && s'.leaked == s.leaked
    && s'.stopped == s.stopped && |s'.shards| == |s.shards| && AllFrames(s'.shards) == AllFrames(s.shards)
  }

  lemma NoFrameAdded(s: RouterState, q: Answers, shard: nat, m: Message)
    requires shard < |s.shards| && !m.Frame?
    ensures OnlyBarriers(s, PushShard(s, q, shard, m).0)
  {
    AllFramesPush(s.shards, shard, m);
    assert [m][..0] == [];
  }

  lemma {:induction false} BroadcastOnlyBarriers(s: RouterState, q: Answers, cfg: Wiring, b: SubscriptionBarrier,
                                                 next: nat)
    ensures OnlyBarriers(s, Broadcast(s, q, cfg, b, next).0)
    decreases |s.shards| - next
  {
    if next < |s.shards| && ValidTarget(cfg, s, next) {
      NoFrameAdded(s, q, next, Subscription(b));
      var (s1, ok) := PushShard(s, q, next, Subscription(b));
      if ok { BroadcastOnlyBarriers(s1, q, cfg, b, next + 1); }
    }
  }

  lemma MarketOnlyBarriers(s: RouterState, q: Answers, cfg: Wiring, b: Barrier)
    ensures OnlyBarriers(s, BeginMarket(s, q, cfg, b).0)
  {
    if b.reason != NO_REASON && ValidTarget(cfg, s, b.shard) { NoFrameAdded(s, q, b.shard, MarketBarrier(b)); }
  }

  lemma SubscriptionOnlyBarriers(s: RouterState, q: Answers, cfg: Wiring, b: SubscriptionBarrier)
    ensures OnlyBarriers(s, BeginSubscription(s, q, cfg, b).0)
  {
    hide Broadcast;
    BroadcastOnlyBarriers(s, q, cfg, b, 0);
  }

  lemma FlushOnlyBarriers(s: RouterState, q: Answers, cfg: Wiring)
    ensures OnlyBarriers(s, Flush(s, q, cfg).0)
  {
    hide Broadcast, PushShard;
    if s.fact.None? && s.pending.Some? {
      match s.pending.value
      case PendingMarket(b) =>
        if b.reason != NO_REASON && ValidTarget(cfg, s, b.shard) { NoFrameAdded(s, q, b.shard, MarketBarrier(b)); }
      case PendingSubscription(b, next) => BroadcastOnlyBarriers(s, q, cfg, b, next);
    }
  }

  lemma HandoffConserves(s: RouterState, q: Answers, h: Handle)
    ensures var s' := Handoff(s, q, h).0;
            && multiset(s'.logger) + multiset(s'.recycled) + multiset(s'.leaked) ==
                 multiset(s.logger) + multiset(s.recycled) + multiset(s.leaked) + multiset{h}
            && s' == s.(pushes := s'.pushes, logger := s'.logger, recycled := s'.recycled, leaked := s'.leaked)
            && (Handoff(s, q, h).1 ==> s'.leaked == s.leaked)
  {
  }

  lemma NoteConserves(s: RouterState, m: Message, c: Contribution)
    ensures FramesOf(Note(s, m, c).inputs) == FramesOf(s.inputs) + FramesOf([m])
    ensures FramesOf([m]) == match m case Frame(h) => multiset{h} case _ => multiset{}
  {
    FramesSnoc(s.inputs, m);
    assert [m][..0] == [];
  }

  lemma EnqueuedConserves(s: RouterState, s1: RouterState, h: Handle)
    requires HandlesConserved(s) && h.shard < |s.shards|
    requires s1 == s.(pushes := s1.pushes, shards := s.shards[h.shard := s.shards[h.shard] + [Frame(h)]])
    ensures HandlesConserved(Note(s1, Frame(h), ToShard(h.shard, Frame(h))))
  {
    hide FramesOf, AllFrames;
    NoteConserves(s1, Frame(h), ToShard(h.shard, Frame(h)));
    AllFramesPush(s.shards, h.shard, Frame(h));
  }

  lemma LostConserves(s: RouterState, q: Answers, h: Handle, c: Contribution)
    requires HandlesConserved(s)
    ensures HandlesConserved(Note(Handoff(s, q, h).0, Frame(h), c))
  {
    hide FramesOf, AllFrames, Handoff;
    HandoffConserves(s, q, h);
    var s1 := Handoff(s, q, h).0;
    NoteConserves(s1, Frame(h), c);
    var frames := AllFrames(s.shards);
    assert frames + multiset(s.logger) + multiset(s.recycled) + multiset(s.leaked) ==
           frames + (multiset(s.logger) + multiset(s.recycled) + multiset(s.leaked));
    assert frames + multiset(s1.logger) + multiset(s1.recycled) + multiset(s1.leaked) ==
           frames + (multiset(s1.logger) + multiset(s1.recycled) + multiset(s1.leaked));
  }

  lemma StillConserved(s: RouterState, s': RouterState)
    requires HandlesConserved(s) && OnlyBarriers(s, s')
    ensures HandlesConserved(s')
  {
  }

  /** Routing a frame puts it in a shard queue, the logger, the recycle queue or the leak list. */
  lemma FrameConserved(s: RouterState, q: Answers, cfg: Wiring, h: Handle)
    requires HandlesConserved(s)
    ensures HandlesConserved(RouteFrame(s, q, cfg, h).0)
  {
    hide HandlesConserved, TryRoute, Handoff, BeginMarket, OnlyBarriers;
    var (s1, e) := TryRoute(s, q, cfg, h);
    EnqueuedShape(s, q, cfg, h);
    Untouched(s, q, cfg, h);
    if e.Enqueued? {
      EnqueuedConserves(s, s1, h);
    } else {
      assert HandlesConserved(s1) by { PushesIgnored(s, s1.pushes); }
      LostConserves(s1, q, h, Nothing);
      var (s2, kept) := Handoff(s1, q, h);
      if e.Full? && kept && IsBook(h.kind) {
        var b := BarrierFor(h, s2.nextIncident);
        var c := ToShard(h.shard, MarketBarrier(b));
        LostConserves(s1, q, h, c);
        var s3 := Note(s2.(nextIncident := s2.nextIncident + 1), Frame(h), c);
        assert HandlesConserved(s3) by { IncidentsIgnored(Note(s2, Frame(h), c), s3.nextIncident); }
        MarketOnlyBarriers(s3, q, cfg, b);
        StillConserved(s3, BeginMarket(s3, q, cfg, b).0);
      }
    }
  }

  lemma PushesIgnored(s: RouterState, n: nat)
    requires HandlesConserved(s)
    ensures HandlesConserved(s.(pushes := n))
  {
  }

  lemma IncidentsIgnored(s: RouterState, n: nat)
    requires HandlesConserved(s)
    ensures HandlesConserved(s.(nextIncident := n))
  {
  }

  lemma Untouched(s: RouterState, q: Answers, cfg: Wiring, h: Handle)
    ensures !TryRoute(s, q, cfg, h).1.Enqueued? ==>
              TryRoute(s, q, cfg, h).0 == s.(pushes := TryRoute(s, q, cfg, h).0.pushes)
  {
  }

  lemma EnqueuedShape(s: RouterState, q: Answers, cfg: Wiring, h: Handle)
    ensures TryRoute(s, q, cfg, h).1.Enqueued? ==>
              h.shard < |s.shards| &&
              TryRoute(s, q, cfg, h).0 ==
              s.(pushes := TryRoute(s, q, cfg, h).0.pushes,
                 shards := s.shards[h.shard := s.shards[h.shard] + [Frame(h)]])
  {
  }

  lemma MessageConserved(s: RouterState, q: Answers, cfg: Wiring, m: Message)
    requires HandlesConserved(s)
    ensures HandlesConserved(RouteMessage(s, q, cfg, m).0)
  {
    hide RouteFrame, BeginMarket, BeginSubscription, FramesOf, AllFrames;
    match m
    case Frame(h) => FrameConserved(s, q, cfg, h);
    case MarketBarrier(b) =>
      NoteConserves(s, m, ToShard(b.shard, m));
      MarketOnlyBarriers(Note(s, m, ToShard(b.shard, m)), q, cfg, b);
    case Subscription(b) =>
      NoteConserves(s, m, ToAll(b));
      SubscriptionOnlyBarriers(Note(s, m, ToAll(b)), q, cfg, b);
  }

  // ------------------------------------------------------------------ ordering

  /** The shard queues and facts agree with the contributions, given what is pending. */
  predicate Aligned(s: RouterState, j: nat)
    requires j < |s.shards|
  {
    s.shards[j] + Owed(s.pending, j) == Project(s.given, j)
  }

  /** Delivering without the history of inputs, which only Note() changes. */
  predicate Streams(s: RouterState) {
    && (forall j: nat :: j < |s.shards| ==> Aligned(s, j))
    && s.facts + OwedFacts(s) == FactsOf(s.given)
    && !(s.pending.Some? && s.fact.Some?)
    && (s.pending.Some? && s.pending.value.PendingSubscription? ==> s.pending.value.next <= |s.shards|)
  }

  predicate Matched(s: RouterState) {
    |s.inputs| == |s.given| && forall i :: 0 <= i < |s.inputs| ==> Allowed(s.inputs[i], s.given[i])
  }

  lemma DeliveringParts(s: RouterState)
    ensures Delivering(s) <==> Streams(s) && Matched(s)
  {
    if Delivering(s) { forall j: nat | j < |s.shards| ensures Aligned(s, j) {} }
    if Streams(s) {
      forall j: nat | j < |s.shards| ensures s.shards[j] + Owed(s.pending, j) == Project(s.given, j) {
        assert Aligned(s, j);
      }
    }
  }

  /** A state whose queues lag behind by a subscription barrier from shard `next` on. */
  predicate Lagging(s: RouterState, b: SubscriptionBarrier, next: nat) {
    && next <= |s.shards| && s.pending.None? && s.fact.None?
    && s.facts + [b] == FactsOf(s.given)
    && forall j: nat ::
      j < |s.shards| ==> s.shards[j] + (if next <= j then [Subscription(b)] else []) == Project(s.given, j)
  }

  /** Broadcasting delivers the barrier to each further shard exactly once. */
  lemma {:induction false} BroadcastCatchesUp(s: RouterState, q: Answers, cfg: Wiring, b: SubscriptionBarrier,
                                              next: nat)
    requires Lagging(s, b, next)
    ensures var (s', next', d) := Broadcast(s, q, cfg, b, next);
            && Lagging(s', b, next') && |s'.shards| == |s.shards| && (d.Delivered? ==> next' == |s.shards|)
            && s'.inputs == s.inputs && s'.given == s.given
    decreases |s.shards| - next
  {
    hide Project, FactsOf;
    if next < |s.shards| && ValidTarget(cfg, s, next) {
      var (s1, ok) := PushShard(s, q, next, Subscription(b));
      if ok {
        forall j: nat | j < |s1.shards|
          ensures s1.shards[j] + (if next + 1 <= j then [Subscription(b)] else []) == Project(s1.given, j) {
          assert s.shards[j] + (if next <= j then [Subscription(b)] else []) == Project(s.given, j);
        }
        BroadcastCatchesUp(s1, q, cfg, b, next + 1);
      }
    }
  }

  /** A barrier that reached every shard, with its fact sent or waiting. */
  lemma FinishStreams(s: RouterState, q: Answers, cfg: Wiring, b: SubscriptionBarrier)
    requires Lagging(s, b, |s.shards|)
    ensures !Finish(s, q, cfg, b).1.Faulted? ==> Streams(Finish(s, q, cfg, b).0)
  {
    hide Project, FactsOf;
    var s' := Finish(s, q, cfg, b).0;
    if !Finish(s, q, cfg, b).1.Faulted? {
      forall j: nat | j < |s'.shards| ensures Aligned(s', j) {
        assert s.shards[j] + [] == Project(s.given, j);
        assert s.shards[j] + [] == s.shards[j];
      }
      if s'.fact.None? { assert s'.facts + [] == s'.facts; }
    }
  }

  lemma PendingStreams(s: RouterState, b: SubscriptionBarrier, next: nat)
    requires Lagging(s, b, next)
    ensures Streams(s.(pending := Some(PendingSubscription(b, next))))
  {
    hide Project, FactsOf;
    var s' := s.(pending := Some(PendingSubscription(b, next)));
    forall j: nat | j < |s'.shards| ensures Aligned(s', j) {
      assert s.shards[j] + (if next <= j then [Subscription(b)] else []) == Project(s.given, j);
    }
  }

  lemma SubscriptionStreams(s: RouterState, q: Answers, cfg: Wiring, b: SubscriptionBarrier)
    requires Lagging(s, b, 0)
    ensures !BeginSubscription(s, q, cfg, b).1.Faulted? ==> Streams(BeginSubscription(s, q, cfg, b).0)
  {
    hide Streams, Lagging, Broadcast, Finish;
    BroadcastCatchesUp(s, q, cfg, b, 0);
    var (s1, next, d) := RouteSubscription(s, q, cfg, b, 0);
    if d.Delivered? { FinishStreams(s1, q, cfg, b); }
    if d.DeliveryBlocked? { PendingStreams(s1, b, next); }
  }

  /** A state whose queue `b.shard` lags behind by one market barrier. */
  predicate LaggingMarket(s: RouterState, b: Barrier) {
    && s.pending.None? && s.fact.None? && s.facts == FactsOf(s.given)
    && forall j: nat ::
      j < |s.shards| ==> s.shards[j] + (if b.shard == j then [MarketBarrier(b)] else []) == Project(s.given, j)
  }

  lemma MarketStreams(s: RouterState, q: Answers, cfg: Wiring, b: Barrier)
    requires LaggingMarket(s, b)
    ensures !BeginMarket(s, q, cfg, b).1.Faulted? ==> Streams(BeginMarket(s, q, cfg, b).0)
  {
    hide Project, FactsOf;
    var (s', r) := BeginMarket(s, q, cfg, b);
    if !r.Faulted? {
      forall j: nat | j < |s'.shards| ensures Aligned(s', j) {
        assert s.shards[j] + (if b.shard == j then [MarketBarrier(b)] else []) == Project(s.given, j);
      }
      assert s'.facts + [] == s'.facts;
    }
  }

  lemma FlushStreams(s: RouterState, q: Answers, cfg: Wiring)
    requires Streams(s)
    ensures !Flush(s, q, cfg).1.Faulted? ==> Streams(Flush(s, q, cfg).0)
  {
    if s.fact.Some? {
      FactStreams(s, q, cfg);
    } else if s.pending.Some? {
      match s.pending.value
      case PendingMarket(b) => FlushMarketStreams(s, q, cfg, b);
      case PendingSubscription(b, next) => FlushSubscriptionStreams(s, q, cfg, b, next);
    }
  }

  lemma FactStreams(s: RouterState, q: Answers, cfg: Wiring)
    requires Streams(s) && s.fact.Some?
    ensures Streams(Flush(s, q, cfg).0)
  {
    hide Project, FactsOf;
    var s' := Flush(s, q, cfg).0;
    forall j: nat | j < |s'.shards| ensures Aligned(s', j) { assert Aligned(s, j); }
    if s'.fact.None? { assert s'.facts + [] == s'.facts; }
  }

  lemma FlushMarketStreams(s: RouterState, q: Answers, cfg: Wiring, b: Barrier)
    requires Streams(s) && s.fact.None? && s.pending == Some(PendingMarket(b))
    ensures !Flush(s, q, cfg).1.Faulted? ==> Streams(Flush(s, q, cfg).0)
  {
    hide Project, FactsOf;
    var (s', r) := Flush(s, q, cfg);
    if !r.Faulted? {
      forall j: nat | j < |s'.shards| ensures Aligned(s', j) { assert Aligned(s, j); }
    }
  }

  lemma FlushSubscriptionStreams(s: RouterState, q: Answers, cfg: Wiring, b: SubscriptionBarrier, next: nat)
    requires Streams(s) && s.fact.None? && s.pending == Some(PendingSubscription(b, next))
    ensures !Flush(s, q, cfg).1.Faulted? ==> Streams(Flush(s, q, cfg).0)
  {
    var s0 := s.(pending := None);
    assert Lagging(s0, b, next) by {
      forall j: nat | j < |s.shards|
        ensures s.shards[j] + (if next <= j then [Subscription(b)] else []) == Project(s.given, j)
      {
        assert Aligned(s, j);
      }
    }
    BroadcastIgnoresPending(s, q, cfg, b, next);
    hide Streams, Lagging, Broadcast, Finish;
    BroadcastCatchesUp(s0, q, cfg, b, next);
    var (s1, next', d) := Broadcast(s0, q, cfg, b, next);
    if d.Delivered? { FinishStreams(s1, q, cfg, b); }
    if d.DeliveryBlocked? { PendingStreams(s1, b, next'); }
  }

  lemma {:induction false} BroadcastIgnoresPending(s: RouterState, q: Answers, cfg: Wiring, b: SubscriptionBarrier,
                                                   next: nat)
    ensures var (s1, n1, d1) := Broadcast(s, q, cfg, b, next);
            var (s0, n0, d0) := Broadcast(s.(pending := None), q, cfg, b, next);
            s0 == s1.(pending := None) && n0 == n1 && d0 == d1 && s1.pending == s.pending
    decreases |s.shards| - next
  {
    if next < |s.shards| && ValidTarget(cfg, s, next) {
      var (s1, ok) := PushShard(s, q, next, Subscription(b));
      if ok { BroadcastIgnoresPending(s1, q, cfg, b, next + 1); }
    }
  }

  // ----------------------------------------------------------- routing a message

  /** Noting an input with nothing pending. */
  lemma NoteLags(s: RouterState, m: Message, c: Contribution)
    requires Streams(s) && s.pending.None? && s.fact.None?
    ensures var s' := Note(s, m, c);
            && (forall j: nat :: j < |s'.shards| ==> s'.shards[j] + Part(c, j) == Project(s'.given, j))
            && s'.facts + (if c.ToAll? then [c.everything] else []) == FactsOf(s'.given)
  {
    var s' := Note(s, m, c);
    ProjectSnoc(s.given, c, 0);
    forall j: nat | j < |s'.shards| ensures s'.shards[j] + Part(c, j) == Project(s'.given, j) {
      assert Aligned(s, j);
      ProjectSnoc(s.given, c, j);
      assert s.shards[j] + [] == s.shards[j];
    }
    assert s.facts + [] == s.facts;
  }

  lemma NothingStreams(s: RouterState, m: Message)
    requires Streams(s) && s.pending.None? && s.fact.None?
    ensures Streams(Note(s, m, Nothing))
  {
    hide Project, FactsOf;
    NoteLags(s, m, Nothing);
    var s' := Note(s, m, Nothing);
    forall j: nat | j < |s'.shards| ensures Aligned(s', j) {
      assert s'.shards[j] + Part(Nothing, j) == Project(s'.given, j);
    }
  }

  lemma ToShardLags(s: RouterState, m: Message, b: Barrier)
    requires Streams(s) && s.pending.None? && s.fact.None?
    ensures LaggingMarket(Note(s, m, ToShard(b.shard, MarketBarrier(b))), b)
  {
    hide Project, FactsOf;
    var c := ToShard(b.shard, MarketBarrier(b));
    NoteLags(s, m, c);
    var s' := Note(s, m, c);
    forall j: nat | j < |s'.shards|
      ensures s'.shards[j] + (if b.shard == j then [MarketBarrier(b)] else []) == Project(s'.given, j) {
      assert s'.shards[j] + Part(c, j) == Project(s'.given, j);
    }
    assert s'.facts + [] == s'.facts;
  }

  lemma ToAllLags(s: RouterState, b: SubscriptionBarrier)
    requires Streams(s) && s.pending.None? && s.fact.None?
    ensures Lagging(Note(s, Subscription(b), ToAll(b)), b, 0)
  {
    hide Project, FactsOf;
    NoteLags(s, Subscription(b), ToAll(b));
    var s' := Note(s, Subscription(b), ToAll(b));
    forall j: nat | j < |s'.shards|
      ensures s'.shards[j] + (if 0 <= j then [Subscription(b)] else []) == Project(s'.given, j) {
      assert s'.shards[j] + Part(ToAll(b), j) == Project(s'.given, j);
    }
  }

  lemma EnqueuedStreams(s: RouterState, s1: RouterState, h: Handle)
    requires Streams(s) && s.pending.None? && s.fact.None? && h.shard < |s.shards|
    requires s1 == s.(pushes := s1.pushes, shards := s.shards[h.shard := s.shards[h.shard] + [Frame(h)]])
    ensures Streams(Note(s1, Frame(h), ToShard(h.shard, Frame(h))))
  {
    hide Project, FactsOf;
    var c := ToShard(h.shard, Frame(h));
    NoteLags(s, Frame(h), c);
    var s' := Note(s1, Frame(h), c);
    forall j: nat | j < |s'.shards| ensures Aligned(s', j) {
      assert s.shards[j] + Part(c, j) == Project(s'.given, j);
      assert s'.shards[j] == s.shards[j] + Part(c, j);
    }
  }

  /** The handoff and the push count do not touch the streams. */
  lemma StreamsIgnore(s: RouterState, s': RouterState)
    requires Streams(s) && s'.shards == s.shards && s'.pending == s.pending && s'.fact == s.fact && s'.facts == s.facts
    requires s'.given == s.given
    ensures Streams(s')
  {
    hide Project, FactsOf;
    forall j: nat | j < |s'.shards| ensures Aligned(s', j) { assert Aligned(s, j); }
  }

  lemma FrameStreams(s: RouterState, q: Answers, cfg: Wiring, h: Handle)
    requires Streams(s) && s.pending.None? && s.fact.None?
    ensures !RouteFrame(s, q, cfg, h).1.Faulted? ==> Streams(RouteFrame(s, q, cfg, h).0)
  {
    hide Streams, TryRoute, Handoff, BeginMarket, LaggingMarket;
    var (s1, e) := TryRoute(s, q, cfg, h);
    EnqueuedShape(s, q, cfg, h);
    Untouched(s, q, cfg, h);
    if e.Enqueued? {
      EnqueuedStreams(s, s1, h);
    } else if e.Full? {
      HandoffConserves(s1, q, h);
      var (s2, kept) := Handoff(s1, q, h);
      StreamsIgnore(s, s2);
      NothingStreams(s2, Frame(h));
      if kept && IsBook(h.kind) {
        var b := BarrierFor(h, s2.nextIncident);
        var s3 := s2.(nextIncident := s2.nextIncident + 1);
        StreamsIgnore(s2, s3);
        ToShardLags(s3, Frame(h), b);
        MarketStreams(Note(s3, Frame(h), ToShard(h.shard, MarketBarrier(b))), q, cfg, b);
      }
    }
  }

  lemma MessageStreams(s: RouterState, q: Answers, cfg: Wiring, m: Message)
    requires Streams(s) && s.pending.None? && s.fact.None?
    ensures !RouteMessage(s, q, cfg, m).1.Faulted? ==> Streams(RouteMessage(s, q, cfg, m).0)
  {
    hide Streams, RouteFrame, BeginMarket, BeginSubscription, Lagging, LaggingMarket;
    match m
    case Frame(h) => FrameStreams(s, q, cfg, h);
    case MarketBarrier(b) =>
      ToShardLags(s, m, b);
      MarketStreams(Note(s, m, ToShard(b.shard, m)), q, cfg, b);
    case Subscription(b) =>
      ToAllLags(s, b);
      SubscriptionStreams(Note(s, m, ToAll(b)), q, cfg, b);
  }

  // -------------------------------------------------------------------- history

  lemma NoteMatched(s: RouterState, m: Message, c: Contribution)
    requires Matched(s) && Allowed(m, c)
    ensures Matched(Note(s, m, c))
  {
  }

  lemma FrameMatched(s: RouterState, q: Answers, cfg: Wiring, h: Handle)
    requires Matched(s)
    ensures !RouteFrame(s, q, cfg, h).1.Faulted? ==> Matched(RouteFrame(s, q, cfg, h).0)
    ensures !RouteFrame(s, q, cfg, h).1.Faulted? ==> RouteFrame(s, q, cfg, h).0.leaked == s.leaked
  {
    hide AllFrames, Matched;
    var (s1, e) := TryRoute(s, q, cfg, h);
    EnqueuedShape(s, q, cfg, h);
    Untouched(s, q, cfg, h);
    HandoffConserves(s1, q, h);
    hide TryRoute, Handoff, BeginMarket;
    assert Matched(s1) by { MatchedSame(s, s1); }
    if e.Enqueued? {
      NoteMatched(s1, Frame(h), ToShard(h.shard, Frame(h)));
    } else if e.Full? {
      var (s2, kept) := Handoff(s1, q, h);
      assert Matched(s2) by { MatchedSame(s1, s2); }
      if kept && !IsBook(h.kind) { NoteMatched(s2, Frame(h), Nothing); }
      if kept && IsBook(h.kind) {
        var b := BarrierFor(h, s2.nextIncident);
        var s3 := s2.(nextIncident := s2.nextIncident + 1);
        assert Matched(s3) by { MatchedSame(s2, s3); }
        NoteMatched(s3, Frame(h), ToShard(h.shard, MarketBarrier(b)));
        var s4 := Note(s3, Frame(h), ToShard(h.shard, MarketBarrier(b)));
        MarketOnlyBarriers(s4, q, cfg, b);
        assert Matched(BeginMarket(s4, q, cfg, b).0) by { MatchedSame(s4, BeginMarket(s4, q, cfg, b).0); }
      }
    }
  }

  lemma MatchedSame(s: RouterState, s': RouterState)
    requires Matched(s) && s'.inputs == s.inputs && s'.given == s.given
    ensures Matched(s')
  {
  }

  lemma MessageMatched(s: RouterState, q: Answers, cfg: Wiring, m: Message)
    requires Matched(s)
    ensures !RouteMessage(s, q, cfg, m).1.Faulted? ==>
              Matched(RouteMessage(s, q, cfg, m).0) && RouteMessage(s, q, cfg, m).0.leaked == s.leaked
  {
    hide RouteFrame, BeginMarket, BeginSubscription, AllFrames, Matched;
    match m
    case Frame(h) => FrameMatched(s, q, cfg, h);
    case MarketBarrier(b) =>
      var s1 := Note(s, m, ToShard(b.shard, m));
      NoteMatched(s, m, ToShard(b.shard, m));
      MarketOnlyBarriers(s1, q, cfg, b);
      MatchedSame(s1, BeginMarket(s1, q, cfg, b).0);
    case Subscription(b) =>
      var s1 := Note(s, m, ToAll(b));
      NoteMatched(s, m, ToAll(b));
      SubscriptionOnlyBarriers(s1, q, cfg, b);
      MatchedSame(s1, BeginSubscription(s1, q, cfg, b).0);
  }

  // ----------------------------------------------------------------------- runs

  lemma InitialInv(n: nat)
    ensures RouterInv(InitialRouter(n))
  {
    hide AllFrames;
    NoFrames(seq(n, i => []));
  }

  lemma {:induction false} NoFrames(shards: seq<seq<Message>>)
    requires forall j :: 0 <= j < |shards| ==> shards[j] == []
    ensures AllFrames(shards) == multiset{}
  {
    if shards != [] { NoFrames(shards[..|shards| - 1]); }
  }

  /** After a flush that completed nothing is pending. */
  lemma FlushCompletes(s: RouterState, q: Answers, cfg: Wiring)
    requires !(s.pending.Some? && s.fact.Some?)
    ensures Flush(s, q, cfg).1.Completed? ==> Flush(s, q, cfg).0.pending.None? && Flush(s, q, cfg).0.fact.None?
  {
    hide Broadcast;
    if s.fact.None? && s.pending.Some? {
      match s.pending.value
      case PendingMarket(b) =>
      case PendingSubscription(b, next) =>
        BroadcastIgnoresPending(s, q, cfg, b, next); BroadcastKeepsFact(s, q, cfg, b, next);
    }
  }

  lemma {:induction false} BroadcastKeepsFact(s: RouterState, q: Answers, cfg: Wiring, b: SubscriptionBarrier,
                                              next: nat)
    ensures Broadcast(s, q, cfg, b, next).0.fact == s.fact
    decreases |s.shards| - next
  {
    if next < |s.shards| && ValidTarget(cfg, s, next) {
      var (s1, ok) := PushShard(s, q, next, Subscription(b));
      if ok { BroadcastKeepsFact(s1, q, cfg, b, next + 1); }
    }
  }

  /** Every turn of the router thread keeps order and conserves handles. */
  lemma TurnInv(s: RouterState, q: Answers, cfg: Wiring, input: Option<Message>)
    requires RouterInv(s)
    ensures RouterInv(Turn(s, q, cfg, input))
  {
    if !s.stopped {
      DeliveringParts(s);
      FlushCompletes(s, q, cfg);
      hide Delivering, Flush, RouteMessage, HandlesConserved, OnlyBarriers, Matched;
      var (s1, r) := Flush(s, q, cfg);
      FlushOnlyBarriers(s, q, cfg);
      StillConserved(s, s1);
      FlushStreams(s, q, cfg);
      FlushKeeps(s, s1);
      DeliveringParts(s1);
      if r.Faulted? {
        StoppedConserved(s1);
      } else if r.Completed? && input.Some? {
        var (s2, r2) := RouteMessage(s1, q, cfg, input.value);
        MessageConserved(s1, q, cfg, input.value);
        MessageStreams(s1, q, cfg, input.value);
        MessageMatched(s1, q, cfg, input.value);
        StoppedConserved(s2);
        DeliveringParts(s2);
        assert s2.stopped == false || r2.Faulted? by { NotStopped(s1, q, cfg, input.value); }
      }
    }
  }

  lemma FlushKeeps(s: RouterState, s1: RouterState)
    requires OnlyBarriers(s, s1) && Matched(s)
    ensures Matched(s1) && s1.leaked == s.leaked && s1.stopped == s.stopped
  {
    hide AllFrames;
  }

  lemma StoppedConserved(s: RouterState)
    requires HandlesConserved(s)
    ensures HandlesConserved(s.(stopped := true))
  {
  }

  lemma NotStopped(s: RouterState, q: Answers, cfg: Wiring, m: Message)
    ensures RouteMessage(s, q, cfg, m).0.stopped == s.stopped
  {
    hide AllFrames, Broadcast;
    match m
    case Frame(h) =>
    case MarketBarrier(b) =>
    case Subscription(b) => BroadcastOnlyBarriers(Note(s, m, ToAll(b)), q, cfg, b, 0);
  }

  function Turns(s: RouterState, q: Answers, cfg: Wiring, inputs: seq<Option<Message>>): RouterState
    decreases |inputs|
  {
    if inputs == [] then s else Turns(Turn(s, q, cfg, inputs[0]), q, cfg, inputs[1..])
  }

  lemma {:induction false} TurnsInv(s: RouterState, q: Answers, cfg: Wiring, inputs: seq<Option<Message>>)
    requires RouterInv(s)
    ensures RouterInv(Turns(s, q, cfg, inputs))
    decreases |inputs|
  {
    hide RouterInv, Turn;
    if inputs != [] {
      TurnInv(s, q, cfg, inputs[0]);
      TurnsInv(Turn(s, q, cfg, inputs[0]), q, cfg, inputs[1..]);
    }
  }

  /** In a run that did not fault, every shard queue is the in-order concatenation of what the
      inputs contribute, up to one pending barrier, and no handle is leaked; in every run each
      frame taken in is in exactly one of the shard queues, the logger, the recycle queue or the
      leak list. */
  lemma RouterOrder(n: nat, q: Answers, cfg: Wiring, inputs: seq<Option<Message>>)
    ensures var s := Turns(InitialRouter(n), q, cfg, inputs);
            && HandlesConserved(s)
            && (!s.stopped ==>
                  && s.leaked == [] && |s.inputs| == |s.given|
                  && (forall i :: 0 <= i < |s.inputs| ==> Allowed(s.inputs[i], s.given[i]))
                  && (forall j: nat :: j < |s.shards| ==> s.shards[j] + Owed(s.pending, j) == Project(s.given, j))
                  && s.facts + OwedFacts(s) == FactsOf(s.given))
  {
    InitialInv(n);
    TurnsInv(InitialRouter(n), q, cfg, inputs);
  }

  function SubscriptionsIn(ms: seq<Message>): seq<SubscriptionBarrier> {
    if ms == [] then []
    else SubscriptionsIn(ms[..|ms| - 1]) + if ms[|ms| - 1].Subscription? then [ms[|ms| - 1].everything] else []
  }

  lemma {:induction false} SubscriptionsAppend(a: seq<Message>, b: seq<Message>)
    ensures SubscriptionsIn(a + b) == SubscriptionsIn(a) + SubscriptionsIn(b)
  {
    if b == [] {
      assert a + b == a;
    } else {
      assert (a + b)[..|a + b| - 1] == a + b[..|b| - 1];
      SubscriptionsAppend(a, b[..|b| - 1]);
    }
  }

  lemma {:induction false} EveryShardGetsEveryBarrier(given: seq<Contribution>, j: nat)
    requires forall i :: 0 <= i < |given| && given[i].ToShard? ==> !given[i].message.Subscription?
    ensures SubscriptionsIn(Project(given, j)) == FactsOf(given)
  {
    if given != [] {
      var last := given[|given| - 1];
      EveryShardGetsEveryBarrier(given[..|given| - 1], j);
      SubscriptionsAppend(Project(given[..|given| - 1], j), Part(last, j));
      match last
      case Nothing =>
      case ToShard(shard, m) => assert [m][..0] == [];
      case ToAll(b) => assert [Subscription(b)][..0] == [];
    }
  }

  /** A recovery fact is sent once per subscription barrier, in order, and only after every shard
      has been given that barrier. */
  lemma FactsFollowDelivery(s: RouterState, j: nat)
    requires Delivering(s) && j < |s.shards|
    ensures s.facts <= SubscriptionsIn(s.shards[j]) <= FactsOf(s.given)
  {
    hide Project, FactsOf;
    NoSubscriptionToOne(s);
    EveryShardGetsEveryBarrier(s.given, j);
    SubscriptionsAppend(s.shards[j], Owed(s.pending, j));
    OwedSubscriptions(s, j);
    PrefixOrder(s.facts, OwedFacts(s), SubscriptionsIn(s.shards[j]), SubscriptionsIn(Owed(s.pending, j)),
                FactsOf(s.given));
  }

  /** Single-shard contributions are frames and market barriers. */
  lemma NoSubscriptionToOne(s: RouterState)
    requires Delivering(s)
    ensures forall i :: 0 <= i < |s.given| && s.given[i].ToShard? ==> !s.given[i].message.Subscription?
  {
    hide Project, FactsOf;
    forall i | 0 <= i < |s.given| && s.given[i].ToShard? ensures !s.given[i].message.Subscription? {
      assert Allowed(s.inputs[i], s.given[i]);
    }
  }

  lemma OwedSubscriptions(s: RouterState, j: nat)
    ensures |SubscriptionsIn(Owed(s.pending, j))| <= |OwedFacts(s)|
  {
    match s.pending
    case None =>
    case Some(PendingMarket(b)) => assert [MarketBarrier(b)][..0] == [];
    case Some(PendingSubscription(b, next)) => assert [Subscription(b)][..0] == [];
  }

  lemma PrefixOrder<T>(a: seq<T>, x: seq<T>, b: seq<T>, y: seq<T>, f: seq<T>)
    requires a + x == f && b + y == f && |y| <= |x|
    ensures a <= b <= f
  {
    assert a == f[..|a|] && b == f[..|b|];
  }
}
