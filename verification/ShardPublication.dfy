/** What strategies were last told about each pair of a usable chain is exactly the best levels of
    its current books, and equal revisions mean equal books. */
module ShardPublication {
  import opened Wrappers
  import opened MarketData
  import opened Book
  import opened Event
  import opened Shard
  import opened ShardTracking

  /** The latest observation published for a pair of an event. */
  function Latest(published: seq<StrategyMessage>, id: nat, p: nat): Option<Observation> {
    if published == [] then None
    else
      var m := published[|published| - 1];
      if m.PairSeen? && m.observation.event == id && m.observation.easier.index == p then Some(m.observation)
      else Latest(published[..|published| - 1], id, p)
  }

  /** A usable chain: every adjacent pair of its markets is a rung. */
  predicate ChainReady(ev: EventState) {
    ev.topology.MonotonicChain? && EventUsable(ev) && forall p: nat :: p + 1 < |ev.markets| ==> PairOk(ev, p)
  }

  predicate Current(published: seq<StrategyMessage>, ev: EventState, p: nat) {
    var o := Latest(published, ev.id, p);
    PairOk(ev, p) && o.Some? && o.value.easier == ViewOf(ev.markets[p]) && o.value.harder == ViewOf(ev.markets[p + 1])
  }

  predicate EventCurrent(published: seq<StrategyMessage>, ev: EventState) {
    ChainReady(ev) ==> forall p: nat :: p + 1 < |ev.markets| ==> Current(published, ev, p)
  }

  predicate DistinctEvents(events: seq<EventState>) {
    forall e, e' :: 0 <= e < e' < |events| ==> events[e].id != events[e'].id
  }

  predicate Coherent(s: ShardState) {
    && DistinctEvents(s.events)
    && (!s.silenced ==> forall e :: 0 <= e < |s.events| ==> EventCurrent(s.published, s.events[e]))
  }

  // -------------------------------------------------------------------- pushing

  lemma LatestNext(published: seq<StrategyMessage>, m: StrategyMessage, id: nat, p: nat)
    ensures Latest(published + [m], id, p) ==
            if m.PairSeen? && m.observation.event == id && m.observation.easier.index == p then Some(m.observation)
            else Latest(published, id, p)
  {
    assert (published + [m])[..|published|] == published;
  }

  /** Nothing was published about event `id`, or the shard fell silent. */
  ghost predicate SaysNothingOf(s: ShardState, s': ShardState, id: nat) {
    (s.silenced ==> s'.silenced)
        && (!s'.silenced ==> forall p: nat :: Latest(s'.published, id, p) == Latest(s.published, id, p))
  }

  lemma PublishPlain(s: ShardState, q: Answers, m: StrategyMessage, id: nat)
    requires !m.PairSeen? || m.observation.event != id
    ensures SaysNothingOf(s, Publish(s, q, m), id)
  {
    forall p: nat ensures Latest(s.published + [m], id, p) == Latest(s.published, id, p) {
      LatestNext(s.published, m, id, p);
    }
  }

  /** Publishing pair `i` of event `e` makes it current and leaves every other pair alone. */
  lemma PairPublished(s: ShardState, q: Answers, e: nat, i: nat)
    requires e < |s.events|
    ensures var s' := PublishPair(s, q, e, i);
            && (s.silenced ==> s'.silenced)
            && (!s'.silenced ==> Current(s'.published, s.events[e], i))
            && (!s'.silenced ==> forall p: nat ::
                  p != i ==> Latest(s'.published, s.events[e].id, p) == Latest(s.published, s.events[e].id, p))
            && forall id: nat :: id != s.events[e].id ==> SaysNothingOf(s, s', id)
  {
    var o := PairObservation(s.events[e], i);
    if o.Some? {
      hide TopBids, TopAsks, EventUsable;
      forall p: nat ensures Latest(s.published + [PairSeen(o.value)], s.events[e].id, p) ==
                            if p == i then o else Latest(s.published, s.events[e].id, p) {
        LatestNext(s.published, PairSeen(o.value), s.events[e].id, p);
      }
      hide Latest;
      forall id: nat | id != s.events[e].id ensures SaysNothingOf(s, PublishPair(s, q, e, i), id) {
        PublishPlain(s, q, PairSeen(o.value), id);
      }
    }
  }

  lemma {:induction false} FromPublished(s: ShardState, q: Answers, e: nat, i: nat)
    requires e < |s.events|
    ensures var s' := PublishFrom(s, q, e, i);
            && (s.silenced ==> s'.silenced)
            && (!s'.silenced ==> forall p: nat ::
                  i <= p && p + 1 < |s.events[e].markets| ==> Current(s'.published, s.events[e], p))
            && (!s'.silenced ==> forall p: nat ::
                  p < i ==> Latest(s'.published, s.events[e].id, p) == Latest(s.published, s.events[e].id, p))
            && forall id: nat :: id != s.events[e].id ==> SaysNothingOf(s, s', id)
    decreases |s.events[e].markets| - i
  {
    if i + 1 < |s.events[e].markets| {
      hide PublishPair, Latest;
      var s1 := PublishPair(s, q, e, i);
      PairPublished(s, q, e, i);
      PairKeeps(s, q, e, i);
      if !s1.silenced {
        FromPublished(s1, q, e, i + 1);
        var s2 := PublishFrom(s1, q, e, i + 1);
        forall id: nat | id != s.events[e].id ensures SaysNothingOf(s, s2, id) {
          SaysNothingTrans(s, s1, s2, id);
        }
      }
    }
  }

  lemma SaysNothingTrans(s: ShardState, s1: ShardState, s2: ShardState, id: nat)
    requires SaysNothingOf(s, s1, id) && SaysNothingOf(s1, s2, id)
    ensures SaysNothingOf(s, s2, id)
  {
  }

  lemma AffectedPublished(s: ShardState, q: Answers, e: nat, i: nat, becameUsable: bool)
    requires e < |s.events|
    ensures var s' := PublishAffected(s, q, e, i, becameUsable);
            && (s.silenced ==> s'.silenced)
            && (forall id: nat :: id != s.events[e].id ==> SaysNothingOf(s, s', id))
            && (!s'.silenced && ChainReady(s.events[e]) ==> forall p: nat :: p + 1 < |s.events[e].markets| ==>
                  if becameUsable || p == i || p + 1 == i then Current(s'.published, s.events[e], p)
                  else Latest(s'.published, s.events[e].id, p) == Latest(s.published, s.events[e].id, p))
  {
    hide PublishPair, PublishFrom, Latest, Current;
    FromPublished(s, q, e, 0);
    if i > 0 { PairPublished(s, q, e, i - 1); PairKeeps(s, q, e, i - 1); }
    var s1 := if i > 0 then PublishPair(s, q, e, i - 1) else s;
    PairPublished(s1, q, e, i);
    forall id: nat | id != s.events[e].id
      ensures SaysNothingOf(s, s1, id) && SaysNothingOf(s, PublishPair(s1, q, e, i), id) && SaysNothingOf(s, s, id) {
      SaysNothingSelf(s, id);
      SaysNothingTrans(s, s1, PublishPair(s1, q, e, i), id);
    }
    StillCurrent(s1.published, PublishPair(s1, q, e, i).published, s.events[e]);
  }

  lemma StillCurrent(published: seq<StrategyMessage>, published': seq<StrategyMessage>, ev: EventState)
    ensures forall p: nat ::
              Latest(published', ev.id, p) == Latest(published, ev.id, p) && Current(published, ev, p) ==>
                Current(published', ev, p)
  {
  }

  // ------------------------------------------------------------ coherence kept

  /** What a step may do to the events other than `e`: nothing, and say nothing of them. */
  lemma OthersCurrent(s: ShardState, s': ShardState, e: nat)
    requires Coherent(s) && e < |s.events| && |s'.events| == |s.events| && s'.events == s.events[e := s'.events[e]]
    requires s'.events[e].id == s.events[e].id && (s.silenced ==> s'.silenced)
    requires forall id: nat :: id != s.events[e].id ==> SaysNothingOf(s, s', id)
    requires !s'.silenced ==> EventCurrent(s'.published, s'.events[e])
    ensures Coherent(s')
  {
    hide Latest, ChainReady;
    assert DistinctEvents(s'.events);
    if !s'.silenced {
      forall k | 0 <= k < |s'.events| ensures EventCurrent(s'.published, s'.events[k]) {
        if k != e {
          assert EventCurrent(s.published, s.events[k]) && s'.events[k] == s.events[k];
          assert s.events[k].id != s.events[e].id;
          assert SaysNothingOf(s, s', s.events[k].id);
          StillCurrent(s.published, s'.published, s.events[k]);
        }
      }
    }
  }

  lemma NotReady(ev: EventState, i: nat)
    requires i < |ev.markets| && !Usable(ev.markets[i].book)
    ensures !ChainReady(ev)
  {
  }

  /** Publication about one event after one of its markets was lost. */
  lemma LossCoherent(s: ShardState, q: Answers, e: nat, i: nat, next: nat, incident: IncidentKey, market: nat,
                     event: nat, reason: nat)
    requires Coherent(s) && InRange(s, e, i) && EventOk(s.events[e])
    ensures var (ev, t) := InvalidateOne(s.events[e], i);
            Coherent(ReportLoss(WithEvent(s, e, ev).(nextIncident := next), q, t, ev.revision, incident, market, event,
                                reason))
  {
    hide InvalidateOne, ChainReady, EventOk;
    var (ev, t) := InvalidateOne(s.events[e], i);
    InvalidateAdvances(s.events[e], i);
    NotReady(ev, i);
    var s1 := WithEvent(s, e, ev).(nextIncident := next);
    var m := EventUnavailable(event, market, ev.revision);
    var s2 := if t.BecameUnusable? then Publish(s1, q, m) else s1;
    forall id: nat ensures SaysNothingOf(s, s2, id) { PublishPlain(s1, q, m, id); }
    OthersCurrent(s, s2, e);
    StatusCoherent(s2, q, RecoveryNeeded(s1.universe, incident, market, event, reason));
  }

  lemma StatusCoherent(s: ShardState, q: Answers, st: Status)
    requires Coherent(s)
    ensures Coherent(SendStatus(s, q, st).0) && Coherent(Fault(SendStatus(s, q, st).0))
  {
    hide Latest, ChainReady;
  }

  /** An update that changed no book of a usable event changed nothing. */
  lemma UnchangedOrUnusable(ev: EventState, i: nat, p: Parsed)
    requires EventOk(ev) && (p.BookUpdate? ==> WordEvent(p.event))
    ensures var (ev', r) := ApplyEvent(ev, i, p); !r.bookChanged && EventUsable(ev') ==> ev' == ev
  {
    ApplyAdvances(ev, i, p);
    if i < |ev.markets| && p.BookUpdate? {
      var b := ev.markets[i].book;
      BookOkApplied(b, p.event);
      RejectedIsUnusable(b, p.event);
      hide ApplyBook, BookOk;
      if ApplyBook(b, p.event).0 == b { assert ev.markets[i := ev.markets[i].(book := b)] == ev.markets; }
    }
  }

  lemma RejectedIsUnusable(b: KalshiBook, e: BookEvent)
    ensures !ApplyBook(b, e).1.disposition.Applied? ==> ApplyBook(b, e).0 == b || !Usable(ApplyBook(b, e).0)
    ensures !ApplyBook(b, e).1.disposition.Applied? && !ApplyBook(b, e).1.transition.NoTransition? ==>
              ApplyBook(b, e).0 != b || !Usable(b)
  {
  }

  /** What a change of market `i` did to the other markets of its event. */
  lemma OthersInEvent(ev: EventState, i: nat, p: Parsed)
    requires i < |ev.markets|
    ensures var ev' := ApplyEvent(ev, i, p).0;
            |ev'.markets| == |ev.markets| && forall k ::
              0 <= k < |ev.markets| && k != i ==> ev'.markets[k] == ev.markets[k]
  {
    hide ApplyBook;
  }

  /** The pairs of an updated event are current once the affected ones were published. */
  lemma UpdatedCurrent(s: ShardState, s': ShardState, ev: EventState, ev': EventState, i: nat, becameUsable: bool)
    requires !s.silenced ==> EventCurrent(s.published, ev)
    requires SameShape(ev, ev') && i < |ev.markets| && forall k ::
               0 <= k < |ev.markets| && k != i ==> ev'.markets[k] == ev.markets[k]
    requires becameUsable || !EventUsable(ev') || EventUsable(ev)
    requires s.silenced ==> s'.silenced
    requires !s'.silenced && ChainReady(ev') ==> forall p: nat :: p + 1 < |ev'.markets| ==>
               if becameUsable || p == i || p + 1 == i then Current(s'.published, ev', p)
               else Latest(s'.published, ev'.id, p) == Latest(s.published, ev'.id, p)
    ensures !s'.silenced ==> EventCurrent(s'.published, ev')
  {
    hide Latest, ViewOf, EventUsable;
    if !s'.silenced && ChainReady(ev') {
      forall p: nat | p + 1 < |ev'.markets| ensures Current(s'.published, ev', p) {
        if !(becameUsable || p == i || p + 1 == i) {
          assert PairOk(ev', p);
          ReadyBefore(ev, ev');
          assert Current(s.published, ev, p);
        }
      }
    }
  }

  lemma ReadyBefore(ev: EventState, ev': EventState)
    requires SameShape(ev, ev') && ChainReady(ev') && EventUsable(ev)
    ensures ChainReady(ev)
  {
    forall p: nat | p + 1 < |ev.markets| ensures PairOk(ev, p) { assert PairOk(ev', p); }
  }

  lemma BookCoherent(s: ShardState, q: Answers, h: Handle, p: Parsed)
    requires Coherent(s) && FrameTarget(s, h) && EventOk(s.events[h.eventIndex])
    requires (p.BookUpdate? ==> WordEvent(p.event))
    ensures Coherent(ApplyFrame(s, q, h, p))
  {
    var (e, i) := (h.eventIndex, h.marketIndex);
    var (ev', r) := ApplyEvent(s.events[e], i, p);
    var s1 := WithEvent(s, e, ev');
    var m := EventUnavailable(h.event, h.market, ev'.revision);
    var s2 := if r.transition.BecameUnusable? then Publish(s1, q, m) else s1;
    ApplyAdvances(s.events[e], i, p);
    UnchangedOrUnusable(s.events[e], i, p);
    hide ApplyEvent, EventOk, PublishAffected, Publish, EventUsable, Latest, Coherent;
    forall id: nat ensures SaysNothingOf(s, s2, id) { PublishPlain(s1, q, m, id); SaysNothingSelf(s1, id); }
    PublishKeeps(s1, q, m);
    if r.disposition.Applied? && r.bookChanged {
      ChangedCoherent(s, s2, q, h, p);
      StatusCoherent(PublishAffected(s2, q, e, i, r.becameUsable), q,
                     SnapshotApplied(h.recovery, h.universe, h.market, r.transition));
    } else {
      CurrentAt(s, e);
      UnchangedCurrent(s, s2, s.events[e], ev');
      OthersCurrent(s, s2, e);
      StatusCoherent(s2, q, SnapshotApplied(h.recovery, h.universe, h.market, r.transition));
    }
  }

  lemma CurrentAt(s: ShardState, e: nat)
    requires Coherent(s) && e < |s.events|
    ensures !s.silenced ==> EventCurrent(s.published, s.events[e])
  {
    hide Latest, ChainReady;
  }

  /** A changed book and the pairs published for it. */
  lemma ChangedCoherent(s: ShardState, s2: ShardState, q: Answers, h: Handle, p: Parsed)
    requires Coherent(s) && FrameTarget(s, h) && EventOk(s.events[h.eventIndex])
    requires (p.BookUpdate? ==> WordEvent(p.event))
    requires s2.events == s.events[h.eventIndex := ApplyEvent(s.events[h.eventIndex], h.marketIndex, p).0]
    requires (s.silenced ==> s2.silenced) && forall id: nat :: SaysNothingOf(s, s2, id)
    ensures Coherent(PublishAffected(s2, q, h.eventIndex, h.marketIndex,
                                     ApplyEvent(s.events[h.eventIndex], h.marketIndex, p).1.becameUsable))
  {
    hide ApplyEvent, EventOk, PublishAffected, EventUsable, Latest, Coherent, EventCurrent;
    var (e, i) := (h.eventIndex, h.marketIndex);
    var (ev', r) := ApplyEvent(s.events[e], i, p);
    ApplyAdvances(s.events[e], i, p);
    OthersInEvent(s.events[e], i, p);
    BecameFlag(s.events[e], i, p);
    CurrentAt(s, e);
    var s3 := PublishAffected(s2, q, e, i, r.becameUsable);
    AffectedPublished(s2, q, e, i, r.becameUsable);
    AffectedKeeps(s2, q, e, i, r.becameUsable);
    forall id: nat | id != s.events[e].id ensures SaysNothingOf(s, s3, id) { SaysNothingTrans(s, s2, s3, id); }
    SameLatest(s, s2, s.events[e], i);
    UpdatedCurrent(s2, s3, s.events[e], ev', i, r.becameUsable);
    OthersCurrent(s, s3, e);
  }

  lemma SaysNothingSelf(s: ShardState, id: nat)
    ensures SaysNothingOf(s, s, id)
  {
  }

  lemma SameLatest(s: ShardState, s2: ShardState, ev: EventState, i: nat)
    requires SaysNothingOf(s, s2, ev.id) && (!s.silenced ==> EventCurrent(s.published, ev))
    ensures !s2.silenced ==> EventCurrent(s2.published, ev)
  {
    hide Latest;
    StillCurrent(s.published, s2.published, ev);
  }

  lemma UnchangedCurrent(s: ShardState, s2: ShardState, ev: EventState, ev': EventState)
    requires SaysNothingOf(s, s2, ev.id) && (!s.silenced ==> EventCurrent(s.published, ev))
    requires (EventUsable(ev') ==> ev' == ev)
    ensures !s2.silenced ==> EventCurrent(s2.published, ev')
  {
    hide Latest;
    StillCurrent(s.published, s2.published, ev);
  }

  lemma BecameFlag(ev: EventState, i: nat, p: Parsed)
    ensures var (ev', r) := ApplyEvent(ev, i, p);
            (r.becameUsable ==> EventUsable(ev')) && (r.becameUsable || !EventUsable(ev') || EventUsable(ev))
  {
    hide ApplyBook;
  }

  // ------------------------------------------------------------------ handlers

  predicate EventsOk(s: ShardState) { forall e :: 0 <= e < |s.events| ==> EventOk(s.events[e]) }

  lemma LostFrameCoherent(s: ShardState, q: Answers, h: Handle, reason: nat)
    requires Coherent(s) && EventsOk(s) && FrameTarget(s, h)
    ensures Coherent(LoseFrame(s, q, h, reason))
  {
    hide ReportLoss, InvalidateOne, Coherent;
    var t := InvalidateOne(s.events[h.eventIndex], h.marketIndex).1;
    var next := if t.NoTransition? then s.nextIncident else s.nextIncident + 1;
    LossCoherent(s, q, h.eventIndex, h.marketIndex, next, IncidentKey(FromShard, s.shard, s.nextIncident), h.market,
                 h.event, reason);
  }

  lemma FrameCoherent(s: ShardState, q: Answers, f: Frames, h: Handle)
    requires Coherent(s) && EventsOk(s) && SensibleFor(f, h)
    ensures Coherent(OnFrame(s, q, f, h))
  {
    hide ApplyFrame, LoseFrame;
    if FrameTarget(s, h) {
      match f.content(h)
      case GoodFrame(p) => BookCoherent(s, q, h, p);
      case NoFrame => LostFrameCoherent(s, q, h, SHARD_FRAME_MISSING);
      case BadFrame => LostFrameCoherent(s, q, h, SHARD_PARSE_FAILURE);
    }
  }

  lemma BarrierCoherent(s: ShardState, q: Answers, b: Barrier)
    requires Coherent(s) && EventsOk(s)
    ensures Coherent(OnBarrier(s, q, b))
  {
    if BarrierTarget(s, b) {
      LossCoherent(s, q, b.eventIndex, b.marketIndex, s.nextIncident, b.incident, b.market, b.event, b.reason);
    }
    hide ReportLoss, InvalidateOne;
  }

  lemma SubscriptionCoherent(s: ShardState, q: Answers, b: SubscriptionBarrier)
    requires Coherent(s) && EventsOk(s)
    ensures Coherent(OnSubscription(s, q, b))
  {
    hide Latest, EventOk;
    AllInvalid(s.events, |s.events|);
    var events := InvalidateEvents(s.events, |s.events|).0;
    forall e | 0 <= e < |events| ensures !ChainReady(events[e]) {
      assert SameShape(s.events[e], events[e]);
      if events[e].markets != [] { NotReady(events[e], 0); }
    }
    assert DistinctEvents(events) by {
      forall e, e' | 0 <= e < e' < |events| ensures events[e].id != events[e'].id {
        assert SameShape(s.events[e], events[e]) && SameShape(s.events[e'], events[e']);
      }
    }
    hide InvalidateEvents, ChainReady;
  }

  /** Every step keeps the last published pairs of every usable chain exact. */
  lemma StepCoherent(s: ShardState, q: Answers, f: Frames, st: Step)
    requires Coherent(s) && EventsOk(s) && Sensible(f) && Admissible(st)
    ensures Coherent(StepOf(s, q, f, st))
  {
    match st
    case Pumped(input) =>
      assert forall h: Handle :: SensibleFor(f, h);
      hide OnFrame, OnBarrier, OnSubscription, ChainReady, Latest, EventOk, Sensible, SensibleFor;
      var (s1, ok) := FlushStatus(s, q);
      assert Coherent(s1);
      if ok && Pumps(s1.run) && input.Some? {
        match input.value
        case Frame(h) => assert SensibleFor(f, h); FrameCoherent(s1, q, f, h);
        case MarketBarrier(b) => BarrierCoherent(s1, q, b);
        case Subscription(b) => SubscriptionCoherent(s1, q, b);
      }
    case Obeyed(c) =>
      if c.Install? { FreshNotReady(c.events); }
      hide ChainReady, Latest, EventOk, FreshEvents;
  }

  lemma FreshNotReady(events: seq<EventState>)
    requires FreshEvents(events)
    ensures DistinctEvents(events) && forall e :: 0 <= e < |events| ==> !ChainReady(events[e])
  {
    forall e | 0 <= e < |events| ensures !ChainReady(events[e]) {
      if events[e].markets != [] { NotReady(events[e], 0); }
    }
  }
}
