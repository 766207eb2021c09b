/** A live shard's books against the reference: every usable book is its last snapshot plus every
    later delta the shard reached, and every loss leaves the book unusable. */
module ShardTracking {
  import opened MarketData
  import opened Book
  import opened Event
  import opened Shard

  // ---------------------------------------------------- what leaves books alone

  /** Only queues, statuses and publication changed; at most the shard faulted. */
  predicate BooksKept(s: ShardState, s': ShardState) {
    && s'.events == s.events && s'.universe == s.universe && s'.shard == s.shard && s'.seen == s.seen
    && (s'.run == s.run || s'.run.ShardFaulted?)
  }

  lemma PublishKeeps(s: ShardState, q: Answers, m: StrategyMessage)
    ensures BooksKept(s, Publish(s, q, m)) && Publish(s, q, m).run == s.run && Publish(s, q, m).pending == s.pending
  {
  }

  lemma PairKeeps(s: ShardState, q: Answers, e: nat, i: nat)
    ensures BooksKept(s, PublishPair(s, q, e, i)) && PublishPair(s, q, e, i).run == s.run
    ensures PublishPair(s, q, e, i).pending == s.pending
  {
    hide PairObservation;
  }

  lemma {:induction false} FromKeeps(s: ShardState, q: Answers, e: nat, i: nat)
    requires e < |s.events|
    ensures BooksKept(s, PublishFrom(s, q, e, i)) && PublishFrom(s, q, e, i).run == s.run
    ensures PublishFrom(s, q, e, i).pending == s.pending
    decreases |s.events[e].markets| - i
  {
    hide PublishPair;
    if i + 1 < |s.events[e].markets| {
      var s1 := PublishPair(s, q, e, i);
      PairKeeps(s, q, e, i);
      if !s1.silenced { FromKeeps(s1, q, e, i + 1); }
    }
  }

  lemma AffectedKeeps(s: ShardState, q: Answers, e: nat, i: nat, becameUsable: bool)
    requires e < |s.events|
    ensures var s' := PublishAffected(s, q, e, i, becameUsable);
            BooksKept(s, s') && s'.run == s.run && s'.pending == s.pending
  {
    hide PublishPair, PublishFrom;
    FromKeeps(s, q, e, 0);
    if i > 0 { PairKeeps(s, q, e, i - 1); }
    PairKeeps(if i > 0 then PublishPair(s, q, e, i - 1) else s, q, e, i);
  }

  /** With no status waiting, reporting a loss never fails. */
  lemma LossKeeps(s: ShardState, q: Answers, t: Transition, revision: nat, incident: IncidentKey, market: nat,
                  event: nat, reason: nat)
    ensures var s' := ReportLoss(s, q, t, revision, incident, market, event, reason);
            BooksKept(s, s') && (s.pending.None? ==> s'.run == s.run)
  {
  }

  // ------------------------------------------------------------- the reference

  predicate Targets(m: Message, e: nat, i: nat) {
    match m
    case Frame(h) => IsBook(h.kind) && h.eventIndex == e && h.marketIndex == i
    case MarketBarrier(b) => b.eventIndex == e && b.marketIndex == i
    case Subscription(_) => true
  }

  /** What is known of market (e, i) after one more message reached the shard. */
  function After(scale: Scale, r: Reference, m: Message, f: Frames, e: nat, i: nat): Reference {
    if !Targets(m, e, i) then r
    else if m.Frame? && f.content(m.handle).GoodFrame? && f.content(m.handle).parsed.BookUpdate? then
      Follow(scale, r, f.content(m.handle).parsed.event)
    else Unknown
  }

  /** The replay of a sequence of messages for market (e, i). */
  function Replay(scale: Scale, ms: seq<Message>, f: Frames, e: nat, i: nat): Reference {
    if ms == [] then Unknown else After(scale, Replay(scale, ms[..|ms| - 1], f, e, i), ms[|ms| - 1], f, e, i)
  }

  predicate Running(run: RunState) { run.Live? || run.SafeToStop? }

  predicate InRange(s: ShardState, e: nat, i: nat) { e < |s.events| && i < |s.events[e].markets| }

  function BookAt(s: ShardState, e: nat, i: nat): KalshiBook
    requires InRange(s, e, i)
  {
    s.events[e].markets[i].book
  }

  ghost predicate TracksAt(s: ShardState, f: Frames, e: nat, i: nat)
    requires InRange(s, e, i)
  {
    Tracks(BookAt(s, e, i), Replay(BookAt(s, e, i).scale, s.seen, f, e, i))
  }

  ghost predicate ShardTracks(s: ShardState, f: Frames) {
    && (forall e :: 0 <= e < |s.events| ==> EventOk(s.events[e]))
    && (Running(s.run) ==> forall e: nat, i: nat :: InRange(s, e, i) ==> TracksAt(s, f, e, i))
  }

  lemma ReplayNext(scale: Scale, ms: seq<Message>, m: Message, f: Frames, e: nat, i: nat)
    ensures Replay(scale, ms + [m], f, e, i) == After(scale, Replay(scale, ms, f, e, i), m, f, e, i)
  {
    assert (ms + [m])[..|ms|] == ms;
  }

  // ----------------------------------------------------------- one message later

  /** The books after a message: each market moved as the reference says. */
  ghost predicate Moves(s: ShardState, s': ShardState, m: Message, f: Frames) {
    && |s'.events| == |s.events|
    && (forall e :: 0 <= e < |s.events| ==> EventOk(s'.events[e]) && SameShape(s.events[e], s'.events[e]))
    && (Running(s'.run) ==> Running(s.run) && s'.seen == s.seen + [m])
    && (Running(s'.run) ==>
          forall e: nat, i: nat, r: Reference :: InRange(s, e, i) && Tracks(BookAt(s, e, i), r) ==>
            Tracks(s'.events[e].markets[i].book, After(BookAt(s, e, i).scale, r, m, f, e, i)))
  }

  lemma MovesTrack(s: ShardState, s': ShardState, m: Message, f: Frames)
    requires ShardTracks(s, f) && Moves(s, s', m, f)
    ensures ShardTracks(s', f)
  {
    hide Tracks, Replay, EventOk, After;
    if Running(s'.run) {
      forall e: nat, i: nat | InRange(s', e, i) ensures TracksAt(s', f, e, i) {
        assert SameShape(s.events[e], s'.events[e]);
        assert InRange(s, e, i);
        assert TracksAt(s, f, e, i);
        ReplayNext(BookAt(s, e, i).scale, s.seen, m, f, e, i);
      }
    }
  }

  /** One market of one event was replaced. */
  lemma OneEvent(events: seq<EventState>, e: nat, ev: EventState)
    requires e < |events| && (forall k :: 0 <= k < |events| ==> EventOk(events[k])) && EventOk(ev)
    requires SameShape(events[e], ev)
    ensures forall k :: 0 <= k < |events| ==> EventOk(events[e := ev][k]) && SameShape(events[k], events[e := ev][k])
  {
    hide EventOk;
  }

  lemma LosesTrack(ev: EventState, i: nat)
    requires i < |ev.markets| && EventOk(ev)
    ensures Tracks(InvalidateOne(ev, i).0.markets[i].book, Unknown)
    ensures forall k :: 0 <= k < |ev.markets| && k != i ==> InvalidateOne(ev, i).0.markets[k] == ev.markets[k]
  {
    InvalidatedTracks(ev.markets[i].book);
  }

  lemma BookTracks(b: KalshiBook, r: Reference, e: BookEvent)
    requires Tracks(b, r) && WordEvent(e)
    ensures Tracks(ApplyBook(b, e).0, Follow(b.scale, r, e))
  {
    match e
    case Snapshot(bids, asks) => SnapshotTracks(b, r, bids, asks);
    case Delta(side, price, quantity) => DeltaTracks(b, r, side, price, quantity);
  }

  /** A message that makes market (e, i) unusable and touches nothing else. */
  lemma LossMoves(s: ShardState, s': ShardState, m: Message, f: Frames, e: nat, i: nat)
    requires ShardTracks(s, f) && InRange(s, e, i) && s'.events == s.events[e := InvalidateOne(s.events[e], i).0]
    requires s'.seen == s.seen + [m] && (s'.run == s.run || s'.run.ShardFaulted?)
    requires forall x: nat, y: nat :: Targets(m, x, y) <==> x == e && y == i
    requires !(m.Frame? && f.content(m.handle).GoodFrame?)
    ensures Moves(s, s', m, f)
  {
    hide EventOk, Tracks, InvalidateOne, Targets;
    var ev := InvalidateOne(s.events[e], i).0;
    InvalidateAdvances(s.events[e], i);
    OneEvent(s.events, e, ev);
    LosesTrack(s.events[e], i);
    forall x: nat, y: nat, r: Reference | InRange(s, x, y) && Tracks(BookAt(s, x, y), r)
      ensures Tracks(s'.events[x].markets[y].book, After(BookAt(s, x, y).scale, r, m, f, x, y))
    {
      if x == e && y == i { assert Targets(m, x, y); }
    }
  }

  /** A parsed book frame. */
  lemma BookMoves(s: ShardState, s': ShardState, h: Handle, f: Frames)
    requires ShardTracks(s, f) && FrameTarget(s, h) && IsBook(h.kind) && f.content(h).GoodFrame? && SensibleFor(f, h)
    requires s'.events ==
             s.events[h.eventIndex := ApplyEvent(s.events[h.eventIndex], h.marketIndex, f.content(h).parsed).0]
    requires s'.seen == s.seen + [Frame(h)] && (s'.run == s.run || s'.run.ShardFaulted?)
    ensures Moves(s, s', Frame(h), f)
  {
    var (e, i, p) := (h.eventIndex, h.marketIndex, f.content(h).parsed);
    ApplyAdvances(s.events[e], i, p);
    OneEvent(s.events, e, ApplyEvent(s.events[e], i, p).0);
    assert s'.events[e].markets[i].book == ApplyBook(s.events[e].markets[i].book, p.event).0;
    assert forall k :: 0 <= k < |s.events[e].markets| && k != i ==> s'.events[e].markets[k] == s.events[e].markets[k];
    hide EventOk, Tracks, ApplyEvent, ApplyBook, Follow;
    forall x: nat, y: nat, r: Reference | InRange(s, x, y) && Tracks(BookAt(s, x, y), r)
      ensures Tracks(s'.events[x].markets[y].book, After(BookAt(s, x, y).scale, r, Frame(h), f, x, y))
    {
      if x == e && y == i { BookTracks(BookAt(s, x, y), r, p.event); }
    }
  }

  /** A frame that carries no book data, or a fault. */
  lemma IdleMoves(s: ShardState, s': ShardState, m: Message, f: Frames)
    requires ShardTracks(s, f) && s'.events == s.events && s'.seen == s.seen + [m]
    requires (s'.run == s.run || s'.run.ShardFaulted?)
    requires s'.run.ShardFaulted? || forall x: nat, y: nat :: !Targets(m, x, y)
    ensures Moves(s, s', m, f)
  {
    hide EventOk, Tracks, Targets;
  }

  lemma {:induction false} AllInvalid(events: seq<EventState>, n: nat)
    requires n <= |events| && forall e :: 0 <= e < |events| ==> EventOk(events[e])
    ensures var es := InvalidateEvents(events, n).0;
            && (forall e ::
                  0 <= e < |events| ==> EventOk(es[e]) && SameShape(events[e], es[e]) && Advances(events[e], es[e]))
            && (forall e, i :: 0 <= e < n && 0 <= i < |es[e].markets| ==> !Usable(es[e].markets[i].book))
            && (forall e :: n <= e < |events| ==> es[e] == events[e])
  {
    hide EventOk, SameShape, Advances;
    if n > 0 {
      AllInvalid(events, n - 1);
      var es := InvalidateEvents(events, n - 1).0;
      InvalidateFirstAdvances(es[n - 1], |es[n - 1].markets|);
    } else {
      forall e | 0 <= e < |events| ensures SameShape(events[e], events[e]) && Advances(events[e], events[e]) {
        Itself(events[e]);
      }
    }
  }

  lemma Itself(ev: EventState)
    ensures SameShape(ev, ev) && Advances(ev, ev)
  {
  }

  lemma UnusableTracksNothing(b: KalshiBook)
    requires BookOk(b) && !Usable(b)
    ensures Tracks(b, Unknown)
  {
  }

  lemma SubscriptionMoves(s: ShardState, s': ShardState, b: SubscriptionBarrier, f: Frames)
    requires ShardTracks(s, f) && s'.events == InvalidateEvents(s.events, |s.events|).0
    requires s'.seen == s.seen + [Subscription(b)] && s'.run == s.run
    ensures Moves(s, s', Subscription(b), f)
  {
    AllInvalid(s.events, |s.events|);
    forall e: nat, i: nat | InRange(s, e, i) ensures Tracks(s'.events[e].markets[i].book, Unknown) {
      assert SameShape(s.events[e], s'.events[e]) && EventOk(s'.events[e]);
      UnusableTracksNothing(s'.events[e].markets[i].book);
    }
    hide EventOk, Tracks, InvalidateEvents;
  }

  // ------------------------------------------------------------------ handlers

  lemma FrameMoves(s: ShardState, q: Answers, f: Frames, h: Handle)
    requires ShardTracks(s, f) && SensibleFor(f, h)
    ensures Moves(s, OnFrame(s, q, f, h).(seen := s.seen + [Frame(h)]), Frame(h), f)
  {
    hide ShardTracks, Moves;
    var s' := OnFrame(s, q, f, h).(seen := s.seen + [Frame(h)]);
    if !FrameTarget(s, h) {
      IdleMoves(s, s', Frame(h), f);
    } else if !IsBook(h.kind) {
      PlainFrame(s, q, f, h);
      IdleMoves(s, s', Frame(h), f);
    } else if f.content(h).GoodFrame? {
      ApplyFrameShape(s, q, h, f.content(h).parsed);
      BookMoves(s, s', h, f);
    } else {
      LoseFrameShape(s, q, h, if f.content(h).NoFrame? then SHARD_FRAME_MISSING else SHARD_PARSE_FAILURE);
      LossMoves(s, s', Frame(h), f, h.eventIndex, h.marketIndex);
    }
  }

  lemma LoseFrameShape(s: ShardState, q: Answers, h: Handle, reason: nat)
    requires FrameTarget(s, h)
    ensures var s' := LoseFrame(s, q, h, reason);
            && s'.events == s.events[h.eventIndex := InvalidateOne(s.events[h.eventIndex], h.marketIndex).0]
            && s'.shard == s.shard && s'.seen == s.seen && (s'.run == s.run || s'.run.ShardFaulted?)
            && (s.pending.None? ==> s'.run == s.run)
  {
    hide ReportLoss, InvalidateOne;
    var (ev, t) := InvalidateOne(s.events[h.eventIndex], h.marketIndex);
    var next := if t.NoTransition? then s.nextIncident else s.nextIncident + 1;
    var s1 := WithEvent(s, h.eventIndex, ev).(nextIncident := next);
    LossKeeps(s1, q, t, ev.revision, IncidentKey(FromShard, s.shard, s.nextIncident), h.market, h.event, reason);
  }

  lemma ApplyFrameShape(s: ShardState, q: Answers, h: Handle, p: Parsed)
    requires FrameTarget(s, h)
    ensures var s' := ApplyFrame(s, q, h, p);
            && s'.events == s.events[h.eventIndex := ApplyEvent(s.events[h.eventIndex], h.marketIndex, p).0]
            && s'.shard == s.shard && s'.seen == s.seen && (s'.run == s.run || s'.run.ShardFaulted?)
            && (s.pending.None? ==> s'.run == s.run)
  {
    hide ApplyEvent, PublishAffected, Publish;
    var (ev, r) := ApplyEvent(s.events[h.eventIndex], h.marketIndex, p);
    var s1 := WithEvent(s, h.eventIndex, ev);
    var m := EventUnavailable(h.event, h.market, ev.revision);
    PublishKeeps(s1, q, m);
    var s2 := if r.transition.BecameUnusable? then Publish(s1, q, m) else s1;
    AffectedKeeps(s2, q, h.eventIndex, h.marketIndex, r.becameUsable);
  }

  /** A frame without book data leaves every book alone. */
  lemma PlainFrame(s: ShardState, q: Answers, f: Frames, h: Handle)
    requires FrameTarget(s, h) && !IsBook(h.kind) && SensibleFor(f, h)
    ensures var s' := OnFrame(s, q, f, h); s'.events == s.events && s'.seen == s.seen && s'.run == s.run
  {
    assert s.events[h.eventIndex := s.events[h.eventIndex]] == s.events;
  }

  lemma BarrierMoves(s: ShardState, q: Answers, f: Frames, b: Barrier)
    requires ShardTracks(s, f)
    ensures Moves(s, OnBarrier(s, q, b).(seen := s.seen + [MarketBarrier(b)]), MarketBarrier(b), f)
  {
    hide ShardTracks, Moves, ReportLoss, InvalidateOne;
    var s' := OnBarrier(s, q, b).(seen := s.seen + [MarketBarrier(b)]);
    if !BarrierTarget(s, b) {
      IdleMoves(s, s', MarketBarrier(b), f);
    } else {
      var (ev, t) := InvalidateOne(s.events[b.eventIndex], b.marketIndex);
      LossKeeps(WithEvent(s, b.eventIndex, ev), q, t, ev.revision, b.incident, b.market, b.event, b.reason);
      LossMoves(s, s', MarketBarrier(b), f, b.eventIndex, b.marketIndex);
    }
  }

  lemma SubscriptionHandled(s: ShardState, q: Answers, f: Frames, b: SubscriptionBarrier)
    requires ShardTracks(s, f)
    ensures Moves(s, OnSubscription(s, q, b).(seen := s.seen + [Subscription(b)]), Subscription(b), f)
  {
    hide ShardTracks, Moves, InvalidateEvents;
    var s' := OnSubscription(s, q, b).(seen := s.seen + [Subscription(b)]);
    if b.reason == NO_REASON || b.universe != s.universe {
      IdleMoves(s, s', Subscription(b), f);
    } else {
      SubscriptionMoves(s, s', b, f);
    }
  }

  lemma DispatchMoves(s: ShardState, q: Answers, f: Frames, m: Message)
    requires ShardTracks(s, f) && Sensible(f) && Pumps(s.run)
    ensures ShardTracks(Dispatch(s, q, f, m).(seen := s.seen + [m]), f)
  {
    hide Moves, OnFrame, OnBarrier, OnSubscription;
    var s' := Dispatch(s, q, f, m).(seen := s.seen + [m]);
    match m
    case Frame(h) =>
      if s.run.Draining? { hide Tracks, EventOk; } else {
        assert SensibleFor(f, h);
        hide ShardTracks;
        FrameMoves(s, q, f, h);
        MovesTrack(s, s', m, f);
      }
    case MarketBarrier(b) =>
      hide ShardTracks;
      BarrierMoves(s, q, f, b);
      MovesTrack(s, s', m, f);
    case Subscription(b) =>
      hide ShardTracks;
      SubscriptionHandled(s, q, f, b);
      MovesTrack(s, s', m, f);
  }

  lemma SameBooks(s: ShardState, s': ShardState, f: Frames)
    requires ShardTracks(s, f) && s'.events == s.events && s'.seen == s.seen && (Running(s'.run) ==> Running(s.run))
    ensures ShardTracks(s', f)
  {
    hide Tracks, EventOk, Replay;
    if Running(s'.run) {
      forall e: nat, i: nat | InRange(s', e, i) ensures TracksAt(s', f, e, i) {
        assert InRange(s, e, i) && TracksAt(s, f, e, i);
      }
    }
  }

  lemma FreshTracks(s: ShardState, events: seq<EventState>, f: Frames)
    requires FreshEvents(events)
    ensures forall s': ShardState :: s'.events == events && s'.seen == [] ==> ShardTracks(s', f)
  {
    forall e | 0 <= e < |events| ensures EventOk(events[e]) {
      forall i | 0 <= i < |events[e].markets| ensures BookOk(events[e].markets[i].book) {}
    }
    forall e: nat, i: nat | e < |events| && i < |events[e].markets| ensures Tracks(events[e].markets[i].book, Unknown) {
      UnusableTracksNothing(events[e].markets[i].book);
    }
    hide Tracks, EventOk;
  }

  /** Every step of a shard keeps its books in step with the replay of what it has seen. */
  lemma StepTracks(s: ShardState, q: Answers, f: Frames, st: Step)
    requires ShardTracks(s, f) && Sensible(f) && Admissible(st)
    ensures ShardTracks(StepOf(s, q, f, st), f)
  {
    hide ShardTracks, Dispatch, Sensible, FreshEvents;
    match st
    case Pumped(input) =>
      var (s1, ok) := FlushStatus(s, q);
      SameBooks(s, s1, f);
      if ok && Pumps(s1.run) {
        match input
        case None => SameBooks(s1, s1.(run := if s1.run.Draining? then Drained else s1.run), f);
        case Some(m) => DispatchMoves(s1, q, f, m);
      }
    case Obeyed(c) =>
      if c.Install? { FreshTracks(s, c.events, f); }
      SameBooks(s, Fault(s), f);
      if !c.Install? { SameBooks(s, Obey(s, c), f); }
  }
}
