/** A router that faulted: what its shards were given all the same. A fault ends the router thread, so
    only the last input can be left unreported, and only in the ways listed here. */
module RouterStops {
  import opened Wrappers
  import opened MarketData
  import opened Router

  function ButLast<T>(xs: seq<T>): seq<T> { if xs == [] then [] else xs[..|xs| - 1] }

  /** A frame that was taken in and contributes nothing, not even a barrier. */
  predicate Dropped(m: Message, c: Contribution) { m.Frame? && c == Nothing }

  /** A shard was given what every input contributes, up to the part of the last one. */
  predicate Reached(s: RouterState, j: nat)
    requires j < |s.shards|
  {
    s.shards[j] == Project(s.given, j) || s.shards[j] == Project(ButLast(s.given), j)
  }

  /** What holds of a router in every state, faulted or not. */
  predicate EndsWell(s: RouterState) {
    && |s.inputs| == |s.given|
    && (forall i :: 0 <= i < |s.inputs| - 1 ==> Allowed(s.inputs[i], s.given[i]))
    && (s.inputs != [] ==> Allowed(s.inputs[|s.inputs| - 1], s.given[|s.inputs| - 1]) ||
                           Dropped(s.inputs[|s.inputs| - 1], s.given[|s.inputs| - 1]))
    && (forall j: nat :: j < |s.shards| ==> Reached(s, j))
  }

  /** A pending barrier stands for the last input. */
  predicate PendingIsLast(s: RouterState) {
    match s.pending
    case None => true
    case Some(PendingMarket(b)) => s.given != [] && s.given[|s.given| - 1] == ToShard(b.shard, MarketBarrier(b))
    case Some(PendingSubscription(b, _)) => s.given != [] && s.given[|s.given| - 1] == ToAll(b)
  }

  ghost predicate StopInv(s: RouterState) { RouterInv(s) && EndsWell(s) && (!s.stopped ==> PendingIsLast(s)) }

  // ------------------------------------------------------------------ a lag of one input

  lemma LagReaches(s: RouterState, j: nat, tail: seq<Message>)
    requires j < |s.shards| && s.shards[j] + tail == Project(s.given, j)
    requires tail == [] || (s.given != [] && tail == Part(s.given[|s.given| - 1], j))
    ensures Reached(s, j)
  {
    if tail == [] {
      assert s.shards[j] + [] == s.shards[j];
    } else {
      var front := Project(ButLast(s.given), j);
      assert s.shards[j] + tail == front + tail;
      assert s.shards[j] == (s.shards[j] + tail)[..|s.shards[j]|] && front == (front + tail)[..|front|];
    }
  }

  lemma DeliveringReaches(s: RouterState)
    requires Delivering(s) && PendingIsLast(s)
    ensures EndsWell(s)
  {
    hide Project, FactsOf;
    forall j: nat | j < |s.shards| ensures Reached(s, j) { LagReaches(s, j, Owed(s.pending, j)); }
  }

  lemma LaggingReaches(s: RouterState, b: SubscriptionBarrier, next: nat)
    requires Lagging(s, b, next) && s.given != [] && s.given[|s.given| - 1] == ToAll(b)
    ensures forall j: nat :: j < |s.shards| ==> Reached(s, j)
  {
    hide Project, FactsOf;
    forall j: nat | j < |s.shards| ensures Reached(s, j) {
      LagReaches(s, j, if next <= j then [Subscription(b)] else []);
    }
  }

  lemma MarketReaches(s: RouterState, b: Barrier)
    requires LaggingMarket(s, b) && s.given != [] && s.given[|s.given| - 1] == ToShard(b.shard, MarketBarrier(b))
    ensures forall j: nat :: j < |s.shards| ==> Reached(s, j)
  {
    hide Project, FactsOf;
    forall j: nat | j < |s.shards| ensures Reached(s, j) {
      LagReaches(s, j, if b.shard == j then [MarketBarrier(b)] else []);
    }
  }

  lemma SameReached(s: RouterState, s': RouterState)
    requires s'.shards == s.shards && s'.given == s.given
    requires forall j: nat :: j < |s.shards| ==> Reached(s, j)
    ensures forall j: nat :: j < |s'.shards| ==> Reached(s', j)
  {
    forall j: nat | j < |s'.shards| ensures Reached(s', j) { assert Reached(s, j); }
  }

  // --------------------------------------------------------------------- flushing

  lemma FlushReaches(s: RouterState, q: Answers, cfg: Wiring)
    requires Delivering(s) && PendingIsLast(s)
    ensures Flush(s, q, cfg).1.Faulted? ==> forall j: nat ::
              j < |Flush(s, q, cfg).0.shards| ==> Reached(Flush(s, q, cfg).0, j)
    ensures !Flush(s, q, cfg).1.Faulted? ==> PendingIsLast(Flush(s, q, cfg).0)
  {
    hide Project, FactsOf, Reached, Broadcast;
    FlushOnlyBarriers(s, q, cfg);
    DeliveringReaches(s);
    var (s', r) := Flush(s, q, cfg);
    if s.fact.None? && s.pending.Some? {
      match s.pending.value
      case PendingMarket(b) => if r.Faulted? { SameReached(s, s'); }
      case PendingSubscription(b, next) => FlushSubscriptionReaches(s, q, cfg, b, next);
    }
  }

  lemma FlushSubscriptionReaches(s: RouterState, q: Answers, cfg: Wiring, b: SubscriptionBarrier, next: nat)
    requires Delivering(s) && PendingIsLast(s) && s.fact.None? && s.pending == Some(PendingSubscription(b, next))
    ensures Flush(s, q, cfg).1.Faulted? ==> forall j: nat ::
              j < |Flush(s, q, cfg).0.shards| ==> Reached(Flush(s, q, cfg).0, j)
  {
    hide Project, FactsOf, Reached, Broadcast, Delivering, Lagging;
    DeliveringReaches(s);
    PendingLags(s, b, next);
    var s0 := s.(pending := None);
    BroadcastIgnoresPending(s, q, cfg, b, next);
    BroadcastCatchesUp(s0, q, cfg, b, next);
    var (s1, next', d) := Broadcast(s0, q, cfg, b, next);
    LaggingReaches(s1, b, next');
    FinishSame(s1, q, cfg, b);
    var (s', r) := Flush(s, q, cfg);
    if r.Faulted? {
      if b.reason == NO_REASON || |s.shards| == 0 || next > |s.shards| {
        SameReached(s, s');
      } else {
        SameReached(s1, s');
      }
    }
  }

  lemma PendingLags(s: RouterState, b: SubscriptionBarrier, next: nat)
    requires Delivering(s) && s.fact.None? && s.pending == Some(PendingSubscription(b, next))
    ensures Lagging(s.(pending := None), b, next)
  {
    hide Project, FactsOf;
    DeliveringParts(s);
    forall j: nat | j < |s.shards|
      ensures s.shards[j] + (if next <= j then [Subscription(b)] else []) == Project(s.given, j) {
      assert Aligned(s, j);
    }
  }

  lemma FinishSame(s: RouterState, q: Answers, cfg: Wiring, b: SubscriptionBarrier)
    ensures var s' := Finish(s, q, cfg, b).0;
            s'.shards == s.shards && s'.given == s.given && s'.inputs == s.inputs && s'.pending == s.pending
  {
  }

  // ----------------------------------------------------------------- taking an input

  lemma FrameReaches(s: RouterState, q: Answers, cfg: Wiring, h: Handle)
    requires Streams(s) && s.pending.None? && s.fact.None?
    ensures var (s', r) := RouteFrame(s, q, cfg, h);
            && s'.inputs == s.inputs + [Frame(h)] && |s'.given| == |s.given| + 1 && s'.given[..|s.given|] == s.given
            && (r.Faulted? ==> forall j: nat :: j < |s'.shards| ==> Reached(s', j))
            && (Allowed(Frame(h), s'.given[|s.given|]) || s'.given[|s.given|] == Nothing)
            && PendingIsLast(s')
  {
    hide Streams, TryRoute, Handoff, LaggingMarket, Reached, AllFrames, Project, FactsOf;
    var (s1, e) := TryRoute(s, q, cfg, h);
    EnqueuedShape(s, q, cfg, h);
    Untouched(s, q, cfg, h);
    if !e.Enqueued? {
      HandoffConserves(s1, q, h);
      var (s2, kept) := Handoff(s1, q, h);
      StreamsIgnore(s, s2);
      NothingStreams(s2, Frame(h));
      StreamsReach(Note(s2, Frame(h), Nothing));
      if e.Full? && kept && IsBook(h.kind) {
        var b := BarrierFor(h, s2.nextIncident);
        var s3 := s2.(nextIncident := s2.nextIncident + 1);
        StreamsIgnore(s2, s3);
        ToShardLags(s3, Frame(h), b);
        BeginMarketReaches(Note(s3, Frame(h), ToShard(h.shard, MarketBarrier(b))), q, cfg, b);
      }
    }
  }

  lemma StreamsReach(s: RouterState)
    requires Streams(s) && s.pending.None?
    ensures forall j: nat :: j < |s.shards| ==> Reached(s, j)
  {
    hide Project, FactsOf;
    forall j: nat | j < |s.shards| ensures Reached(s, j) {
      assert Aligned(s, j);
      LagReaches(s, j, []);
    }
  }

  lemma BeginMarketReaches(s: RouterState, q: Answers, cfg: Wiring, b: Barrier)
    requires LaggingMarket(s, b) && s.given != [] && s.given[|s.given| - 1] == ToShard(b.shard, MarketBarrier(b))
    ensures var (s', r) := BeginMarket(s, q, cfg, b);
            && s'.inputs == s.inputs && s'.given == s.given
            && (r.Faulted? ==> forall j: nat :: j < |s'.shards| ==> Reached(s', j)) && PendingIsLast(s')
  {
    hide Project, FactsOf, Reached;
    MarketReaches(s, b);
    var (s', r) := BeginMarket(s, q, cfg, b);
    if r.Faulted? { SameReached(s, s'); }
  }

  lemma BeginSubscriptionReaches(s: RouterState, q: Answers, cfg: Wiring, b: SubscriptionBarrier)
    requires Lagging(s, b, 0) && s.given != [] && s.given[|s.given| - 1] == ToAll(b)
    ensures var (s', r) := BeginSubscription(s, q, cfg, b);
            && s'.inputs == s.inputs && s'.given == s.given
            && (r.Faulted? ==> forall j: nat :: j < |s'.shards| ==> Reached(s', j)) && PendingIsLast(s')
  {
    hide Project, FactsOf, Reached, Broadcast;
    LaggingReaches(s, b, 0);
    BroadcastCatchesUp(s, q, cfg, b, 0);
    var (s1, next, d) := Broadcast(s, q, cfg, b, 0);
    LaggingReaches(s1, b, next);
    var (s', r) := BeginSubscription(s, q, cfg, b);
    if r.Faulted? {
      if b.reason == NO_REASON || |s.shards| == 0 { SameReached(s, s'); } else { SameReached(s1, s'); }
    }
  }

  lemma MessageReaches(s: RouterState, q: Answers, cfg: Wiring, m: Message)
    requires Streams(s) && s.pending.None? && s.fact.None?
    ensures var (s', r) := RouteMessage(s, q, cfg, m);
            && s'.inputs == s.inputs + [m] && |s'.given| == |s.given| + 1 && s'.given[..|s.given|] == s.given
            && (r.Faulted? ==> forall j: nat :: j < |s'.shards| ==> Reached(s', j))
            && (Allowed(m, s'.given[|s.given|]) || Dropped(m, s'.given[|s.given|]))
            && PendingIsLast(s')
  {
    hide Streams, RouteFrame, BeginMarket, BeginSubscription, Lagging, LaggingMarket, Reached, PendingIsLast;
    match m
    case Frame(h) => FrameReaches(s, q, cfg, h);
    case MarketBarrier(b) =>
      ToShardLags(s, m, b);
      BeginMarketReaches(Note(s, m, ToShard(b.shard, m)), q, cfg, b);
    case Subscription(b) =>
      ToAllLags(s, b);
      BeginSubscriptionReaches(Note(s, m, ToAll(b)), q, cfg, b);
  }

  // ------------------------------------------------------------------------- runs

  /** Every turn, faulting or not, leaves at most the last input unreported. */
  lemma TurnStopInv(s: RouterState, q: Answers, cfg: Wiring, input: Option<Message>)
    requires StopInv(s)
    ensures StopInv(Turn(s, q, cfg, input))
  {
    hide HandlesConserved, Flush, RouteMessage, Reached, PendingIsLast, Project, FactsOf;
    TurnInv(s, q, cfg, input);
    var s' := Turn(s, q, cfg, input);
    if !s.stopped {
      DeliveringParts(s);
      FlushOnlyBarriers(s, q, cfg);
      FlushReaches(s, q, cfg);
      var (s1, r) := Flush(s, q, cfg);
      if r.Faulted? {
        SameReached(s1, s');
      } else if r.Completed? && input.Some? {
        FlushStreams(s, q, cfg);
        FlushCompletes(s, q, cfg);
        MessageReaches(s1, q, cfg, input.value);
        var (s2, r2) := RouteMessage(s1, q, cfg, input.value);
        NotStopped(s1, q, cfg, input.value);
        if r2.Faulted? { SameReached(s2, s'); }
      }
      if !s'.stopped {
        assert PendingIsLast(s') by { PendingSame(s'); }
        DeliveringReaches(s');
      } else if r.Faulted? {
        EndsSame(s, s');
      } else {
        EndsNoted(s1, s', input.value);
      }
    }
  }

  lemma EndsSame(s: RouterState, s': RouterState)
    requires Matched(s) && s'.inputs == s.inputs && s'.given == s.given && forall j: nat ::
               j < |s'.shards| ==> Reached(s', j)
    ensures EndsWell(s')
  {
    hide Reached;
  }

  lemma EndsNoted(s: RouterState, s': RouterState, m: Message)
    requires Matched(s) && s'.inputs == s.inputs + [m] && |s'.given| == |s.given| + 1
    requires s'.given[..|s.given|] == s.given
    requires Allowed(m, s'.given[|s.given|]) || Dropped(m, s'.given[|s.given|])
    requires forall j: nat :: j < |s'.shards| ==> Reached(s', j)
    ensures EndsWell(s')
  {
    hide Reached;
    forall i | 0 <= i < |s'.inputs| - 1 ensures Allowed(s'.inputs[i], s'.given[i]) {
      assert Allowed(s.inputs[i], s.given[i]) && s'.given[i] == s'.given[..|s.given|][i];
    }
  }

  lemma PendingSame(s: RouterState)
    ensures PendingIsLast(s) == PendingIsLast(s.(stopped := false))
  {
  }

  lemma InitialStopInv(n: nat)
    ensures StopInv(InitialRouter(n))
  {
    hide HandlesConserved;
    InitialInv(n);
    DeliveringReaches(InitialRouter(n));
  }

  lemma {:induction false} TurnsStopInv(s: RouterState, q: Answers, cfg: Wiring, inputs: seq<Option<Message>>)
    requires StopInv(s)
    ensures StopInv(Turns(s, q, cfg, inputs))
    decreases |inputs|
  {
    hide StopInv, Turn;
    if inputs != [] {
      TurnStopInv(s, q, cfg, inputs[0]);
      TurnsStopInv(Turn(s, q, cfg, inputs[0]), q, cfg, inputs[1..]);
    }
  }

  /** In every run, faulted or not, each shard queue is the in-order concatenation of what the inputs
      contribute, up to the part of the last input, and every input before the last contributes itself
      or a barrier in its place. */
  lemma EveryRunEndsWell(n: nat, q: Answers, cfg: Wiring, inputs: seq<Option<Message>>)
    ensures EndsWell(Turns(InitialRouter(n), q, cfg, inputs))
  {
    hide EndsWell, RouterInv, PendingIsLast;
    InitialStopInv(n);
    TurnsStopInv(InitialRouter(n), q, cfg, inputs);
  }

  // --------------------------------------------------------------- the unreported frame

  /** A book frame is taken in and reported to nobody exactly when its target is not wired, or the
      shard queue, the logger and the recycle queue all refuse it; and then the router has faulted. */
  lemma UnreportedIff(s: RouterState, q: Answers, cfg: Wiring, h: Handle)
    requires IsBook(h.kind)
    ensures var (s', r) := RouteFrame(s, q, cfg, h);
            && s'.inputs == s.inputs + [Frame(h)] && |s'.given| == |s.given| + 1 && s'.given[..|s.given|] == s.given
            && (!Allowed(Frame(h), s'.given[|s.given|]) <==>
                !ValidTarget(cfg, s, h.shard)
                    || !(q.accept(s.pushes) || q.accept(s.pushes + 1) || q.accept(s.pushes + 2)))
            && (!Allowed(Frame(h), s'.given[|s.given|]) ==> r.Faulted? && s'.shards == s.shards)
  {
    hide BeginMarket, AllFrames;
    if ValidTarget(cfg, s, h.shard) && !q.accept(s.pushes) && (q.accept(s.pushes + 1) || q.accept(s.pushes + 2)) {
      var s2 := Handoff(TryRoute(s, q, cfg, h).0, q, h).0;
      var b := BarrierFor(h, s2.nextIncident);
      MarketOnlyBarriers(Note(s2.(nextIncident := s2.nextIncident + 1), Frame(h), ToShard(h.shard, MarketBarrier(b))),
                         q, cfg, b);
    }
  }

  /** A faulted router never speaks again. */
  lemma {:induction false} StoppedForGood(s: RouterState, q: Answers, cfg: Wiring, inputs: seq<Option<Message>>)
    requires s.stopped
    ensures Turns(s, q, cfg, inputs) == s
    decreases |inputs|
  {
    if inputs != [] { StoppedForGood(s, q, cfg, inputs[1..]); }
  }

  // -------------------------------------------------------------------------- growth

  predicate Grew(shards: seq<seq<Message>>, shards': seq<seq<Message>>) {
    |shards'| == |shards| && forall j: nat :: j < |shards| ==> shards[j] <= shards'[j]
  }

  lemma {:induction false} BroadcastGrows(s: RouterState, q: Answers, cfg: Wiring, b: SubscriptionBarrier, next: nat)
    ensures Grew(s.shards, Broadcast(s, q, cfg, b, next).0.shards)
    decreases |s.shards| - next
  {
    if next < |s.shards| && ValidTarget(cfg, s, next) {
      var (s1, ok) := PushShard(s, q, next, Subscription(b));
      if ok {
        BroadcastGrows(s1, q, cfg, b, next + 1);
        var s2 := Broadcast(s1, q, cfg, b, next + 1).0;
        forall j: nat | j < |s.shards| ensures s.shards[j] <= s2.shards[j] {
          assert s.shards[j] <= s1.shards[j] <= s2.shards[j];
        }
      }
    }
  }

  lemma FlushGrows(s: RouterState, q: Answers, cfg: Wiring)
    ensures Grew(s.shards, Flush(s, q, cfg).0.shards)
  {
    hide Broadcast;
    if s.fact.None? && s.pending.Some? && s.pending.value.PendingSubscription? {
      BroadcastGrows(s, q, cfg, s.pending.value.everything, s.pending.value.next);
    }
  }

  lemma MarketGrows(s: RouterState, q: Answers, cfg: Wiring, b: Barrier)
    ensures Grew(s.shards, BeginMarket(s, q, cfg, b).0.shards)
  {
  }

  lemma FrameGrows(s: RouterState, q: Answers, cfg: Wiring, h: Handle)
    ensures Grew(s.shards, RouteFrame(s, q, cfg, h).0.shards)
  {
    hide BeginMarket;
    var s1 := TryRoute(s, q, cfg, h).0;
    var s2 := Handoff(s1, q, h).0;
    var b := BarrierFor(h, s2.nextIncident);
    MarketGrows(Note(s2.(nextIncident := s2.nextIncident + 1), Frame(h), ToShard(h.shard, MarketBarrier(b))), q, cfg,
                b);
  }

  lemma MessageGrows(s: RouterState, q: Answers, cfg: Wiring, m: Message)
    ensures Grew(s.shards, RouteMessage(s, q, cfg, m).0.shards)
  {
    hide Broadcast, RouteFrame, BeginMarket;
    match m
    case Frame(h) => FrameGrows(s, q, cfg, h);
    case MarketBarrier(b) => MarketGrows(Note(s, m, ToShard(b.shard, m)), q, cfg, b);
    case Subscription(b) => BroadcastGrows(Note(s, m, ToAll(b)), q, cfg, b, 0);
  }

  /** Queues only grow. */
  lemma TurnGrows(s: RouterState, q: Answers, cfg: Wiring, input: Option<Message>)
    ensures Grew(s.shards, Turn(s, q, cfg, input).shards)
  {
    hide Flush, RouteMessage;
    FlushGrows(s, q, cfg);
    var s1 := Flush(s, q, cfg).0;
    if input.Some? {
      MessageGrows(s1, q, cfg, input.value);
      var s2 := RouteMessage(s1, q, cfg, input.value).0;
      forall j: nat | j < |s.shards| ensures s.shards[j] <= s2.shards[j] {
        assert s.shards[j] <= s1.shards[j] <= s2.shards[j];
      }
    }
  }
}
