/** Whole runs of a shard: what its books are after what it has seen, and what its published views show. */
module EndToEnd {
  import opened MarketData
  import opened Book
  import opened Event
  import opened Shard
  import opened ShardTracking
  import opened ShardPublication

  // ------------------------------------------------------------- runs of a shard

  ghost predicate ShardInv(s: ShardState, f: Frames) { ShardTracks(s, f) && Coherent(s) }

  lemma InitialShardInv(shard: nat, f: Frames)
    ensures ShardInv(InitialShard(shard), f)
  {
  }

  lemma ShardStepInv(s: ShardState, q: Answers, f: Frames, st: Step)
    requires ShardInv(s, f) && Sensible(f) && Admissible(st)
    ensures ShardInv(StepOf(s, q, f, st), f)
  {
    assert EventsOk(s);
    hide ShardTracks, Coherent, StepOf, Sensible, Admissible;
    StepTracks(s, q, f, st);
    StepCoherent(s, q, f, st);
  }

  function Steps(s: ShardState, q: Answers, f: Frames, steps: seq<Step>): ShardState
    decreases |steps|
  {
    if steps == [] then s else Steps(StepOf(s, q, f, steps[0]), q, f, steps[1..])
  }

  predicate AllAdmissible(steps: seq<Step>) { forall i :: 0 <= i < |steps| ==> Admissible(steps[i]) }

  lemma {:induction false} StepsInv(s: ShardState, q: Answers, f: Frames, steps: seq<Step>)
    requires ShardInv(s, f) && Sensible(f) && AllAdmissible(steps)
    ensures ShardInv(Steps(s, q, f, steps), f)
    decreases |steps|
  {
    hide ShardInv, StepOf, Sensible, Admissible;
    if steps != [] {
      ShardStepInv(s, q, f, steps[0]);
      StepsInv(StepOf(s, q, f, steps[0]), q, f, steps[1..]);
    }
  }

  /** In every run, a live shard's book is usable exactly when its replay is known, and then every
      price holds the last snapshot quantity plus every later delta. */
  lemma UsableMeansReplayed(shard: nat, q: Answers, f: Frames, steps: seq<Step>, e: nat, i: nat)
    requires Sensible(f) && AllAdmissible(steps)
    ensures var s := Steps(InitialShard(shard), q, f, steps);
            Running(s.run) && InRange(s, e, i) ==>
              var b := BookAt(s, e, i);
              var r := Replay(b.scale, s.seen, f, e, i);
              && (Usable(b) <==> r.Known?)
              && (Usable(b) ==> forall price: nat :: QuantityAt(b, Bid, price) == Resting(r, Bid, price) &&
                                                     QuantityAt(b, Ask, price) == Resting(r, Ask, price))
  {
    hide Steps, Replay, Coherent;
    InitialShardInv(shard, f);
    StepsInv(InitialShard(shard), q, f, steps);
    var s := Steps(InitialShard(shard), q, f, steps);
    if Running(s.run) && InRange(s, e, i) {
      assert TracksAt(s, f, e, i);
    }
  }

  /** A book update that cannot be applied to what is known: a malformed snapshot, or a delta before
      any snapshot, off the grid, or out of range. */
  predicate BadUpdate(scale: Scale, r: Reference, e: BookEvent) {
    match e
    case Snapshot(bids, asks) => scale.UnknownScale? || !PricesOnGrid(scale, bids) || !PricesOnGrid(scale, asks)
    case Delta(side, price, quantity) => r.Unknown? || !GoodDelta(scale, r, side, price, quantity)
  }

  /** Book data of market (e, i) is lost: a barrier, a frame whose slot is missing or that does not
      parse, or a bad update. */
  predicate Loses(scale: Scale, r: Reference, m: Message, f: Frames, e: nat, i: nat) {
    && Targets(m, e, i)
    && (m.Frame? && f.content(m.handle).GoodFrame? ==>
          !f.content(m.handle).parsed.BookUpdate? || BadUpdate(scale, r, f.content(m.handle).parsed.event))
  }

  /** A frame with a well-formed snapshot of market (e, i). */
  predicate Restores(scale: Scale, m: Message, f: Frames, e: nat, i: nat) {
    && m.Frame? && Targets(m, e, i) && f.content(m.handle).GoodFrame? && f.content(m.handle).parsed.BookUpdate?
    && f.content(m.handle).parsed.event.Snapshot? && !BadUpdate(scale, Unknown, f.content(m.handle).parsed.event)
  }

  lemma {:induction false} UnknownUntilSnapshot(scale: Scale, ms: seq<Message>, f: Frames, e: nat, i: nat, n: nat)
    requires n < |ms| && Loses(scale, Replay(scale, ms[..n], f, e, i), ms[n], f, e, i)
    requires forall x :: n < x < |ms| ==> !Restores(scale, ms[x], f, e, i)
    ensures Replay(scale, ms, f, e, i).Unknown?
  {
    var front := ms[..|ms| - 1];
    if n < |front| {
      assert front[..n] == ms[..n];
      UnknownUntilSnapshot(scale, front, f, e, i, n);
    }
  }

  /** In every run, a live shard's book that lost data stays unusable until a well-formed snapshot of
      its market comes. */
  lemma LossIsNotForgotten(shard: nat, q: Answers, f: Frames, steps: seq<Step>, e: nat, i: nat, n: nat)
    requires Sensible(f) && AllAdmissible(steps)
    ensures var s := Steps(InitialShard(shard), q, f, steps);
            Running(s.run) && InRange(s, e, i) && n < |s.seen| ==>
              var scale := BookAt(s, e, i).scale;
              Loses(scale, Replay(scale, s.seen[..n], f, e, i), s.seen[n], f, e, i) ==>
                (exists x :: n < x < |s.seen| && Restores(scale, s.seen[x], f, e, i)) || !Usable(BookAt(s, e, i))
  {
    hide Steps, Replay, Loses, Restores;
    UsableMeansReplayed(shard, q, f, steps, e, i);
    var s := Steps(InitialShard(shard), q, f, steps);
    if Running(s.run) && InRange(s, e, i) && n < |s.seen| {
      var scale := BookAt(s, e, i).scale;
      var lost := Loses(scale, Replay(scale, s.seen[..n], f, e, i), s.seen[n], f, e, i);
      if lost && forall x :: n < x < |s.seen| ==> !Restores(scale, s.seen[x], f, e, i) {
        UnknownUntilSnapshot(scale, s.seen, f, e, i, n);
      }
    }
  }

  /** In every run, the latest observation of each pair of a usable chain shows exactly the best
      levels of the current books. */
  lemma PublishedViewsAreExact(shard: nat, q: Answers, f: Frames, steps: seq<Step>, e: nat, p: nat)
    requires Sensible(f) && AllAdmissible(steps)
    ensures var s := Steps(InitialShard(shard), q, f, steps);
            !s.silenced && e < |s.events| && ChainReady(s.events[e]) && p + 1 < |s.events[e].markets| ==>
              var o := Latest(s.published, s.events[e].id, p);
              var (easier, harder) := (s.events[e].markets[p].book, s.events[e].markets[p + 1].book);
              && o.Some?
              && BestBids(easier, o.value.easier.bids, STRATEGY_DEPTH)
              && BestAsks(easier, o.value.easier.asks, STRATEGY_DEPTH)
              && BestBids(harder, o.value.harder.bids, STRATEGY_DEPTH)
              && BestAsks(harder, o.value.harder.asks, STRATEGY_DEPTH)
  {
    hide Steps, BestBids, BestAsks, TopBids, TopAsks;
    InitialShardInv(shard, f);
    StepsInv(InitialShard(shard), q, f, steps);
    var s := Steps(InitialShard(shard), q, f, steps);
    if !s.silenced && e < |s.events| && ChainReady(s.events[e]) && p + 1 < |s.events[e].markets| {
      assert EventCurrent(s.published, s.events[e]) && EventOk(s.events[e]);
      assert Current(s.published, s.events[e], p);
      hide Latest, Gridded;
      BidsAreBest(s.events[e].markets[p].book, STRATEGY_DEPTH);
      AsksAreBest(s.events[e].markets[p].book, STRATEGY_DEPTH);
      BidsAreBest(s.events[e].markets[p + 1].book, STRATEGY_DEPTH);
      AsksAreBest(s.events[e].markets[p + 1].book, STRATEGY_DEPTH);
    }
  }

  // ------------------------------------------------------------------ revisions

  /** No event went back, and an event with the same revision is the same. */
  predicate EventsAdvance(s: ShardState, s': ShardState) {
    |s'.events| == |s.events| && forall e :: 0 <= e < |s.events| ==> Advances(s.events[e], s'.events[e])
  }

  lemma OneAdvances(s: ShardState, e: nat, ev: EventState)
    requires e < |s.events| && Advances(s.events[e], ev)
    ensures EventsAdvance(s, s.(events := s.events[e := ev]))
  {
  }

  lemma DispatchAdvances(s: ShardState, q: Answers, f: Frames, m: Message)
    requires EventsOk(s) && Sensible(f)
    ensures EventsAdvance(s, Dispatch(s, q, f, m))
  {
    match m
    case Frame(h) => assert SensibleFor(f, h); if FrameTarget(s, h) { FrameAdvances(s, q, f, h); }
    case MarketBarrier(b) => BarrierAdvances(s, q, b);
    case Subscription(b) => AllInvalid(s.events, |s.events|);
  }

  lemma FrameAdvances(s: ShardState, q: Answers, f: Frames, h: Handle)
    requires EventsOk(s) && FrameTarget(s, h) && SensibleFor(f, h)
    ensures EventsAdvance(s, OnFrame(s, q, f, h))
  {
    var ev := s.events[h.eventIndex];
    assert EventOk(ev);
    hide EventsOk, EventOk, LoseFrame, ApplyFrame;
    match f.content(h)
    case GoodFrame(p) =>
      ApplyAdvances(ev, h.marketIndex, p);
      ApplyFrameShape(s, q, h, p);
      OneAdvances(s, h.eventIndex, ApplyEvent(ev, h.marketIndex, p).0);
    case _ =>
      InvalidateAdvances(ev, h.marketIndex);
      LoseFrameShape(s, q, h, SHARD_FRAME_MISSING);
      LoseFrameShape(s, q, h, SHARD_PARSE_FAILURE);
      OneAdvances(s, h.eventIndex, InvalidateOne(ev, h.marketIndex).0);
  }

  lemma BarrierAdvances(s: ShardState, q: Answers, b: Barrier)
    requires EventsOk(s)
    ensures EventsAdvance(s, OnBarrier(s, q, b))
  {
    if BarrierTarget(s, b) {
      var ev := s.events[b.eventIndex];
      assert EventOk(ev);
      InvalidateAdvances(ev, b.marketIndex);
      OneAdvances(s, b.eventIndex, InvalidateOne(ev, b.marketIndex).0);
      hide EventsOk, EventOk, ReportLoss, InvalidateOne;
      var (ev', t) := InvalidateOne(ev, b.marketIndex);
      LossKeeps(WithEvent(s, b.eventIndex, ev'), q, t, ev'.revision, b.incident, b.market, b.event, b.reason);
    }
  }

  predicate NoInstall(steps: seq<Step>) {
    forall i :: 0 <= i < |steps| ==> !(steps[i].Obeyed? && steps[i].command.Install?)
  }

  lemma StepAdvances(s: ShardState, q: Answers, f: Frames, st: Step)
    requires EventsOk(s) && Sensible(f) && !(st.Obeyed? && st.command.Install?)
    ensures EventsAdvance(s, StepOf(s, q, f, st))
  {
    hide EventOk, Dispatch, Sensible;
    match st
    case Pumped(input) =>
      var s1 := FlushStatus(s, q).0;
      assert EventsOk(s1);
      if input.Some? { DispatchAdvances(s1, q, f, input.value); }
    case Obeyed(c) =>
  }

  /** Between two states of one installed universe, equal revisions mean equal books. */
  lemma {:induction false} EqualRevisionsEqualBooks(s: ShardState, q: Answers, f: Frames, steps: seq<Step>)
    requires ShardInv(s, f) && Sensible(f) && AllAdmissible(steps) && NoInstall(steps)
    ensures EventsAdvance(s, Steps(s, q, f, steps))
    decreases |steps|
  {
    if steps != [] {
      var s1 := StepOf(s, q, f, steps[0]);
      assert EventsOk(s);
      hide ShardInv, StepOf, Sensible, Admissible, EventsOk;
      ShardStepInv(s, q, f, steps[0]);
      StepAdvances(s, q, f, steps[0]);
      EqualRevisionsEqualBooks(s1, q, f, steps[1..]);
    }
  }

  lemma DispatchKeepsShard(s: ShardState, q: Answers, f: Frames, m: Message)
    ensures Dispatch(s, q, f, m).shard == s.shard
  {
    hide LoseFrame, ApplyFrame, ReportLoss, InvalidateOne, InvalidateEvents;
    match m
    case Frame(h) =>
      if FrameTarget(s, h) {
        LoseFrameShape(s, q, h, SHARD_FRAME_MISSING);
        LoseFrameShape(s, q, h, SHARD_PARSE_FAILURE);
        match f.content(h)
        case GoodFrame(p) => ApplyFrameShape(s, q, h, p);
        case _ =>
      }
    case MarketBarrier(b) =>
      if BarrierTarget(s, b) {
        var (ev, t) := InvalidateOne(s.events[b.eventIndex], b.marketIndex);
        LossKeeps(WithEvent(s, b.eventIndex, ev), q, t, ev.revision, b.incident, b.market, b.event, b.reason);
      }
    case Subscription(_) =>
  }

  lemma StepKeepsShard(s: ShardState, q: Answers, f: Frames, st: Step)
    ensures StepOf(s, q, f, st).shard == s.shard
  {
    hide Dispatch;
    if st.Pumped? && st.input.Some? { DispatchKeepsShard(FlushStatus(s, q).0, q, f, st.input.value); }
  }

  lemma {:induction false} RunKeepsShard(s: ShardState, q: Answers, f: Frames, steps: seq<Step>)
    ensures Steps(s, q, f, steps).shard == s.shard
    decreases |steps|
  {
    hide StepOf;
    if steps != [] {
      StepKeepsShard(s, q, f, steps[0]);
      RunKeepsShard(StepOf(s, q, f, steps[0]), q, f, steps[1..]);
    }
  }
}
