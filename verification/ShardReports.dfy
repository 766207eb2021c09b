/** Which losses a shard reports: every recovery status it has sent or still holds, and for each book
    that awaits recovery the message that lost it and whether that message was reported. */
module ShardReports {
  import opened Wrappers
  import opened MarketData
  import opened Book
  import opened Event
  import opened Shard
  import opened ShardTracking
  import opened ShardPublication
  import opened EndToEnd
  import P = Pipeline

  // ------------------------------------------------------------- which message lost a book

  // A market before its first snapshot, with a known book, or lost by the message at a position.
  datatype Standing = Fresh | Good | Lost(at: nat)

  /** Book updates that a book without a snapshot ignores: a delta, or anything on no known grid. */
  predicate PassedOver(scale: Scale, m: Message, f: Frames) {
    && m.Frame? && f.content(m.handle).GoodFrame? && f.content(m.handle).parsed.BookUpdate?
    && (f.content(m.handle).parsed.event.Delta? || scale.UnknownScale?)
  }

  /** Where market (e, i) stands after message number `n`; `r` is what was known before it. */
  function StandAfter(scale: Scale, c: Standing, r: Reference, m: Message, n: nat, f: Frames, e: nat, i: nat)
    : Standing
  {
    if !Targets(m, e, i) then c
    else if After(scale, r, m, f, e, i).Known? then Good
    else if c.Lost? || (c.Fresh? && PassedOver(scale, m, f)) then c
    else Lost(n)
  }

  function Stand(scale: Scale, ms: seq<Message>, f: Frames, e: nat, i: nat): Standing {
    if ms == [] then Fresh
    else
      var front := ms[..|ms| - 1];
      StandAfter(scale, Stand(scale, front, f, e, i), Replay(scale, front, f, e, i), ms[|ms| - 1], |front|, f, e, i)
  }

  lemma StandNext(scale: Scale, ms: seq<Message>, m: Message, f: Frames, e: nat, i: nat)
    ensures Stand(scale, ms + [m], f, e, i) ==
            StandAfter(scale, Stand(scale, ms, f, e, i), Replay(scale, ms, f, e, i), m, |ms|, f, e, i)
  {
    assert (ms + [m])[..|ms|] == ms;
  }

  /** A lost market was lost by a message that concerns it, and has stayed lost by it. */
  lemma {:induction false} LostSince(scale: Scale, ms: seq<Message>, f: Frames, e: nat, i: nat, x: nat)
    requires Stand(scale, ms, f, e, i).Lost? && x <= |ms|
    ensures var n := Stand(scale, ms, f, e, i).at;
            && n < |ms| && Targets(ms[n], e, i) && !Stand(scale, ms[..n], f, e, i).Lost?
            && (n < x ==> Stand(scale, ms[..x], f, e, i) == Lost(n))
  {
    if ms != [] {
      var front := ms[..|ms| - 1];
      var n := Stand(scale, ms, f, e, i).at;
      if x == |ms| { assert ms[..x] == ms; }
      if Stand(scale, front, f, e, i).Lost? {
        LostSince(scale, front, f, e, i, if x < |ms| then x else |front|);
        assert n < |front| ==> front[..n] == ms[..n];
        assert x < |ms| ==> front[..x] == ms[..x];
      }
    }
  }

  predicate Agrees(b: KalshiBook, c: Standing) {
    (b.sync.AwaitingInitial? <==> c.Fresh?) && (b.sync.Synchronized? <==> c.Good?)
  }

  lemma UpdateAgrees(b: KalshiBook, c: Standing, r: Reference, m: Message, n: nat, f: Frames, e: nat, i: nat)
    requires Agrees(b, c) && Tracks(b, r) && m.Frame? && Targets(m, e, i)
    requires f.content(m.handle).GoodFrame? && SensibleFor(f, m.handle)
    ensures Agrees(ApplyBook(b, f.content(m.handle).parsed.event).0, StandAfter(b.scale, c, r, m, n, f, e, i))
  {
    var event := f.content(m.handle).parsed.event;
    BookTracks(b, r, event);
    hide Follow, LevelsAgree, Gridded, Book.Install, IndexByTick, TickByIndex;
  }

  // ------------------------------------------------------------------- what is owed

  function LayoutOf(events: seq<EventState>): seq<seq<Scale>> {
    seq(|events|, e requires 0 <= e < |events| =>
      seq(|events[e].markets|, i requires 0 <= i < |events[e].markets| => events[e].markets[i].book.scale))
  }

  /** Market (e, i) is lost already, or does not exist. */
  predicate Gone(layout: seq<seq<Scale>>, ms: seq<Message>, f: Frames, e: nat, i: nat) {
    e < |layout| && i < |layout[e]| ==> Stand(layout[e][i], ms, f, e, i).Lost?
  }

  /** Messages whose loss a shard reports: barriers for one market, frames missing or unreadable. */
  predicate Reportable(m: Message, f: Frames) {
    m.MarketBarrier? || (m.Frame? && IsBook(m.handle.kind) && !f.content(m.handle).GoodFrame?)
  }

  /** The report owed for message `m` after `ms`; `next` numbers the shard's own incidents. */
  function Due(layout: seq<seq<Scale>>, ms: seq<Message>, f: Frames, m: Message, universe: nat, shard: nat, next: nat)
    : seq<Status>
  {
    match m
    case Frame(h) =>
      if !Reportable(m, f) || Gone(layout, ms, f, h.eventIndex, h.marketIndex) then []
      else [RecoveryNeeded(universe, IncidentKey(FromShard, shard, next), h.market, h.event,
                           if f.content(h).NoFrame? then SHARD_FRAME_MISSING else SHARD_PARSE_FAILURE)]
    case MarketBarrier(b) =>
      if Gone(layout, ms, f, b.eventIndex, b.marketIndex) then []
      else [RecoveryNeeded(universe, b.incident, b.market, b.event, b.reason)]
    case Subscription(_) => []
  }

  /** How many incidents of its own the shard has opened over `ms`. */
  function Own(layout: seq<seq<Scale>>, ms: seq<Message>, f: Frames): nat {
    if ms == [] then 0
    else
      var (front, m) := (ms[..|ms| - 1], ms[|ms| - 1]);
      Own(layout, front, f) + if m.Frame? then |Due(layout, front, f, m, 0, 0, 0)| else 0
  }

  /** Every report owed over `ms`, in order. */
  function Owed(layout: seq<seq<Scale>>, ms: seq<Message>, f: Frames, universe: nat, shard: nat, first: nat)
    : seq<Status>
  {
    if ms == [] then []
    else
      var (front, m) := (ms[..|ms| - 1], ms[|ms| - 1]);
      Owed(layout, front, f, universe, shard, first)
      + Due(layout, front, f, m, universe, shard, first + Own(layout, front, f))
  }

  lemma OwedNext(layout: seq<seq<Scale>>, ms: seq<Message>, f: Frames, m: Message, universe: nat, shard: nat,
                 first: nat)
    ensures Own(layout, ms + [m], f) ==
            Own(layout, ms, f) + if m.Frame? then |Due(layout, ms, f, m, 0, 0, 0)| else 0
    ensures Owed(layout, ms + [m], f, universe, shard, first) ==
            Owed(layout, ms, f, universe, shard, first)
            + Due(layout, ms, f, m, universe, shard, first + Own(layout, ms, f))
  {
    assert (ms + [m])[..|ms|] == ms;
  }

  // ---------------------------------------------------------------- what was reported

  /** Statuses sent, and the one still held. */
  function Told(s: ShardState): seq<Status> {
    s.statuses + if s.pending.Some? then [s.pending.value] else []
  }

  /** The recovery reports of one universe among statuses. */
  function ReportsIn(told: seq<Status>, universe: nat): seq<Status> {
    if told == [] then []
    else
      var last := told[|told| - 1];
      ReportsIn(told[..|told| - 1], universe)
      + if last.RecoveryNeeded? && last.universe == universe then [last] else []
  }

  lemma ReportsNext(told: seq<Status>, st: Status, universe: nat)
    ensures ReportsIn(told + [st], universe) ==
            ReportsIn(told, universe) + if st.RecoveryNeeded? && st.universe == universe then [st] else []
  {
    assert (told + [st])[..|told|] == told;
  }

  lemma {:induction false} NoReportsIn(told: seq<Status>, universe: nat)
    requires forall k :: 0 <= k < |told| ==> told[k].universe < universe
    ensures ReportsIn(told, universe) == []
  {
    if told != [] { NoReportsIn(told[..|told| - 1], universe); }
  }

  /** The number of the first incident the shard could open in this universe. */
  function First(s: ShardState, f: Frames): int { s.nextIncident - Own(LayoutOf(s.events), s.seen, f) }

  predicate FromNow(s: ShardState) {
    && (forall k :: 0 <= k < |Told(s)| ==> Told(s)[k].universe <= s.universe)
    && (s.run.Uninstalled? ==> s.universe == 0)
  }

  predicate StandsAt(s: ShardState, f: Frames, e: nat, i: nat)
    requires InRange(s, e, i)
  {
    Agrees(BookAt(s, e, i), Stand(BookAt(s, e, i).scale, s.seen, f, e, i))
  }

  ghost predicate AllStand(s: ShardState, f: Frames) {
    forall e: nat, i: nat :: InRange(s, e, i) ==> StandsAt(s, f, e, i)
  }

  /** Everything seen was for this universe and an existing market. */
  predicate Aimed(s: ShardState, m: Message) {
    match m
    case Frame(h) => FrameTarget(s, h)
    case MarketBarrier(b) => BarrierTarget(s, b)
    case Subscription(b) => true
  }

  ghost predicate AllAimed(s: ShardState) { forall n :: 0 <= n < |s.seen| ==> Aimed(s, s.seen[n]) }

  predicate Square(s: ShardState, f: Frames) {
    && First(s, f) >= 0
    && ReportsIn(Told(s), s.universe) ==
       Owed(LayoutOf(s.events), s.seen, f, s.universe, s.shard, First(s, f))
  }

  ghost predicate Reporting(s: ShardState, f: Frames) {
    && FromNow(s)
    && (Running(s.run) ==> AllStand(s, f) && AllAimed(s) && Square(s, f))
  }

  // ------------------------------------------------------------------ handlers

  /** Neither statuses nor incidents changed. */
  predicate Untold(s: ShardState, s': ShardState) {
    s'.statuses == s.statuses && s'.pending == s.pending && s'.nextIncident == s.nextIncident
        && s'.universe == s.universe && s'.shard == s.shard
  }

  lemma {:induction false} FromUntold(s: ShardState, q: Answers, e: nat, i: nat)
    requires e < |s.events|
    ensures Untold(s, PublishFrom(s, q, e, i))
    decreases |s.events[e].markets| - i
  {
    hide PairObservation;
    if i + 1 < |s.events[e].markets| {
      var s1 := PublishPair(s, q, e, i);
      if !s1.silenced { FromUntold(s1, q, e, i + 1); }
    }
  }

  lemma AffectedUntold(s: ShardState, q: Answers, e: nat, i: nat, becameUsable: bool)
    requires e < |s.events|
    ensures Untold(s, PublishAffected(s, q, e, i, becameUsable))
  {
    hide PairObservation, PublishFrom, EventUsable;
    FromUntold(s, q, e, 0);
  }

  /** What a handler tells: the report `due` if any, or the answer to a recovery request. */
  ghost predicate Tells(s: ShardState, s': ShardState, due: seq<Status>) {
    && s'.universe == s.universe && s'.shard == s.shard
    && (Told(s') == Told(s) + due
        || (due == [] && exists st: Status :: st.SnapshotApplied? && st.universe == s.universe
                                              && Told(s') == Told(s) + [st]))
  }

  lemma ReportTells(s: ShardState, q: Answers, t: Transition, revision: nat, incident: IncidentKey, market: nat,
                    event: nat, reason: nat)
    requires s.pending.None?
    ensures var s' := ReportLoss(s, q, t, revision, incident, market, event, reason);
            && s'.nextIncident == s.nextIncident && s'.run == s.run
            && Tells(s, s', if t.NoTransition? then []
                            else [RecoveryNeeded(s.universe, incident, market, event, reason)])
  {
  }

  lemma ApplyTells(s: ShardState, q: Answers, h: Handle, p: Parsed)
    requires FrameTarget(s, h) && s.pending.None?
    ensures Tells(s, ApplyFrame(s, q, h, p), []) && ApplyFrame(s, q, h, p).nextIncident == s.nextIncident
    ensures h.recovery == 0 ==> Untold(s, ApplyFrame(s, q, h, p))
  {
    hide ApplyEvent, PublishAffected, PairObservation;
    var (ev, r) := ApplyEvent(s.events[h.eventIndex], h.marketIndex, p);
    var s1 := WithEvent(s, h.eventIndex, ev);
    var s2 := if r.transition.BecameUnusable? then Publish(s1, q, EventUnavailable(h.event, h.market, ev.revision))
              else s1;
    AffectedUntold(s2, q, h.eventIndex, h.marketIndex, r.becameUsable);
    var st := SnapshotApplied(h.recovery, h.universe, h.market, r.transition);
    assert st.universe == s.universe;
  }

  lemma LoseTells(s: ShardState, q: Answers, h: Handle, reason: nat)
    requires FrameTarget(s, h) && s.pending.None?
    ensures var s' := LoseFrame(s, q, h, reason);
            var t := InvalidateOne(s.events[h.eventIndex], h.marketIndex).1;
            var incident := IncidentKey(FromShard, s.shard, s.nextIncident);
            && s'.nextIncident == s.nextIncident + (if t.NoTransition? then 0 else 1)
            && Tells(s, s', if t.NoTransition? then []
                            else [RecoveryNeeded(s.universe, incident, h.market, h.event, reason)])
  {
    hide ReportLoss, InvalidateOne;
    var (ev, t) := InvalidateOne(s.events[h.eventIndex], h.marketIndex);
    var incident := IncidentKey(FromShard, s.shard, s.nextIncident);
    var next := if t.NoTransition? then s.nextIncident else s.nextIncident + 1;
    var s1 := WithEvent(s, h.eventIndex, ev).(nextIncident := next);
    ReportTells(s1, q, t, ev.revision, incident, h.market, h.event, reason);
  }

  lemma BarrierTells(s: ShardState, q: Answers, b: Barrier)
    requires BarrierTarget(s, b) && s.pending.None?
    ensures var s' := OnBarrier(s, q, b);
            var t := InvalidateOne(s.events[b.eventIndex], b.marketIndex).1;
            && s'.nextIncident == s.nextIncident
            && Tells(s, s', if t.NoTransition? then []
                            else [RecoveryNeeded(s.universe, b.incident, b.market, b.event, b.reason)])
  {
    hide ReportLoss, InvalidateOne;
    var (ev, t) := InvalidateOne(s.events[b.eventIndex], b.marketIndex);
    ReportTells(WithEvent(s, b.eventIndex, ev), q, t, ev.revision, b.incident, b.market, b.event, b.reason);
  }

  /** Everything told is of this universe or an earlier one. */
  lemma TellsNow(s: ShardState, s': ShardState, due: seq<Status>)
    requires FromNow(s) && Tells(s, s', due) && forall k :: 0 <= k < |due| ==> due[k].universe == s.universe
    ensures forall k :: 0 <= k < |Told(s')| ==> Told(s')[k].universe <= s'.universe
  {
    hide Told;
  }

  lemma UntoldTells(s: ShardState, s': ShardState)
    requires Untold(s, s')
    ensures Tells(s, s', [])
  {
  }

  lemma DispatchNow(s: ShardState, q: Answers, f: Frames, m: Message)
    requires FromNow(s) && Pumps(s.run) && s.pending.None?
    ensures var s' := Dispatch(s, q, f, m); FromNow(s')
  {
    hide Told, Tells, OnBarrier, LoseFrame, ApplyFrame, InvalidateOne, InvalidateEvents;
    var s' := Dispatch(s, q, f, m);
    DispatchKeepsRun(s, q, f, m);
    match m
    case Frame(h) =>
      if FrameTarget(s, h) && !s.run.Draining? { FrameNow(s, q, f, h); } else {
        UntoldTells(s, s');
        TellsNow(s, s', []);
      }
    case MarketBarrier(b) =>
      if BarrierTarget(s, b) {
        BarrierTells(s, q, b);
        var t := InvalidateOne(s.events[b.eventIndex], b.marketIndex).1;
        TellsNow(s, s', if t.NoTransition? then []
                        else [RecoveryNeeded(s.universe, b.incident, b.market, b.event, b.reason)]);
      } else {
        assert s' == Fault(s) by { RefusedBarrier(s, q, b); }
        UntoldTells(s, s');
        TellsNow(s, s', []);
      }
    case Subscription(b) =>
      UntoldTells(s, s');
      TellsNow(s, s', []);
  }

  lemma RefusedBarrier(s: ShardState, q: Answers, b: Barrier)
    requires !BarrierTarget(s, b)
    ensures OnBarrier(s, q, b) == Fault(s)
  {
  }

  lemma DispatchKeepsRun(s: ShardState, q: Answers, f: Frames, m: Message)
    requires Pumps(s.run)
    ensures !Dispatch(s, q, f, m).run.Uninstalled?
  {
    hide LoseFrame, ApplyFrame, ReportLoss, InvalidateOne, InvalidateEvents;
    match m
    case Frame(h) =>
      if FrameTarget(s, h) {
        LoseFrameShape(s, q, h, SHARD_FRAME_MISSING);
        LoseFrameShape(s, q, h, SHARD_PARSE_FAILURE);
        match f.content(h)
        case GoodFrame(p) => ApplyFrameShape(s, q, h, p);
        case _ =>
      }
    case MarketBarrier(b) =>
      if BarrierTarget(s, b) {
        var (ev, t) := InvalidateOne(s.events[b.eventIndex], b.marketIndex);
        LossKeeps(WithEvent(s, b.eventIndex, ev), q, t, ev.revision, b.incident, b.market, b.event, b.reason);
      }
    case Subscription(_) =>
  }

  lemma FrameNow(s: ShardState, q: Answers, f: Frames, h: Handle)
    requires FromNow(s) && FrameTarget(s, h) && s.pending.None?
    ensures var s' := OnFrame(s, q, f, h); forall k :: 0 <= k < |Told(s')| ==> Told(s')[k].universe <= s'.universe
  {
    hide Told, Tells, LoseFrame, ApplyFrame, InvalidateOne;
    var s' := OnFrame(s, q, f, h);
    match f.content(h)
    case GoodFrame(p) =>
      ApplyTells(s, q, h, p);
      TellsNow(s, s', []);
    case _ =>
      if IsBook(h.kind) {
        var reason := if f.content(h).NoFrame? then SHARD_FRAME_MISSING else SHARD_PARSE_FAILURE;
        LoseTells(s, q, h, reason);
        var t := InvalidateOne(s.events[h.eventIndex], h.marketIndex).1;
        var incident := IncidentKey(FromShard, s.shard, s.nextIncident);
        TellsNow(s, s', if t.NoTransition? then []
                        else [RecoveryNeeded(s.universe, incident, h.market, h.event, reason)]);
      }
  }

  // ------------------------------------------------------ a running shard, one message later

  lemma GoneIff(s: ShardState, f: Frames, e: nat, i: nat)
    requires AllStand(s, f) && InRange(s, e, i)
    ensures Gone(LayoutOf(s.events), s.seen, f, e, i) <==> InvalidateOne(s.events[e], i).1.NoTransition?
  {
    hide Stand;
    assert StandsAt(s, f, e, i);
  }

  /** A message that reached its target tells exactly what is due. */
  lemma DispatchTells(s: ShardState, q: Answers, f: Frames, m: Message)
    requires AllStand(s, f) && Running(s.run) && s.pending.None? && Running(Dispatch(s, q, f, m).run)
    ensures var s' := Dispatch(s, q, f, m);
            var due := Due(LayoutOf(s.events), s.seen, f, m, s.universe, s.shard, s.nextIncident);
            && Tells(s, s', due) && s'.nextIncident == s.nextIncident + if m.Frame? then |due| else 0
  {
    hide Told, Tells, OnBarrier, LoseFrame, ApplyFrame, InvalidateOne, InvalidateEvents, AllStand, Gone, LayoutOf;
    var s' := Dispatch(s, q, f, m);
    match m
    case Frame(h) =>
      if IsBook(h.kind) && !f.content(h).GoodFrame? {
        LoseTells(s, q, h, if f.content(h).NoFrame? then SHARD_FRAME_MISSING else SHARD_PARSE_FAILURE);
        GoneIff(s, f, h.eventIndex, h.marketIndex);
      } else if f.content(h).GoodFrame? {
        ApplyTells(s, q, h, f.content(h).parsed);
      } else {
        UntoldTells(s, s');
      }
    case MarketBarrier(b) =>
      if !BarrierTarget(s, b) { RefusedBarrier(s, q, b); }
      BarrierTells(s, q, b);
      GoneIff(s, f, b.eventIndex, b.marketIndex);
    case Subscription(b) => UntoldTells(s, s');
  }

  predicate SameShapes(s: ShardState, s': ShardState) {
    |s'.events| == |s.events| && forall e :: 0 <= e < |s.events| ==> SameShape(s.events[e], s'.events[e])
  }

  lemma SameLayout(s: ShardState, s': ShardState)
    requires SameShapes(s, s')
    ensures LayoutOf(s'.events) == LayoutOf(s.events)
  {
    forall e | 0 <= e < |s.events| ensures LayoutOf(s'.events)[e] == LayoutOf(s.events)[e] {
      assert SameShape(s.events[e], s'.events[e]);
    }
  }

  lemma StillAimed(s: ShardState, s': ShardState, m: Message)
    requires AllAimed(s) && Aimed(s, m) && SameShapes(s, s') && s'.seen == s.seen + [m]
    requires s'.universe == s.universe && s'.shard == s.shard
    ensures AllAimed(s')
  {
    forall n | 0 <= n < |s'.seen| ensures Aimed(s', s'.seen[n]) {
      assert Aimed(s, s'.seen[n]);
      match s'.seen[n]
      case Frame(h) => assert SameShape(s.events[h.eventIndex], s'.events[h.eventIndex]);
      case MarketBarrier(b) => assert SameShape(s.events[b.eventIndex], s'.events[b.eventIndex]);
      case Subscription(_) =>
    }
  }

  /** The books moved as the standings say. */
  ghost predicate StandsMove(s: ShardState, s': ShardState, m: Message, f: Frames)
    requires SameShapes(s, s')
  {
    forall e: nat, i: nat :: InRange(s, e, i) ==>
      var scale := BookAt(s, e, i).scale;
      Agrees(s'.events[e].markets[i].book,
             StandAfter(scale, Stand(scale, s.seen, f, e, i), Replay(scale, s.seen, f, e, i), m, |s.seen|, f, e, i))
  }

  lemma MovesStand(s: ShardState, s': ShardState, m: Message, f: Frames)
    requires SameShapes(s, s') && StandsMove(s, s', m, f) && s'.seen == s.seen + [m]
    ensures AllStand(s', f)
  {
    hide Agrees, StandAfter, Stand, Replay;
    forall e: nat, i: nat | InRange(s', e, i) ensures StandsAt(s', f, e, i) {
      assert SameShape(s.events[e], s'.events[e]) && InRange(s, e, i);
      StandNext(BookAt(s, e, i).scale, s.seen, m, f, e, i);
    }
  }

  /** A message for one market: that market moves and no other. */
  lemma OneStands(s: ShardState, s': ShardState, m: Message, f: Frames, e: nat, i: nat)
    requires AllStand(s, f) && SameShapes(s, s') && InRange(s, e, i)
    requires forall x: nat, y: nat :: Targets(m, x, y) ==> x == e && y == i
    requires forall x: nat, y: nat ::
               InRange(s, x, y) && !(x == e && y == i) ==> s'.events[x].markets[y].book == BookAt(s, x, y)
    requires var scale := BookAt(s, e, i).scale;
             Agrees(s'.events[e].markets[i].book,
                    StandAfter(scale, Stand(scale, s.seen, f, e, i), Replay(scale, s.seen, f, e, i), m, |s.seen|, f,
                               e, i))
    ensures StandsMove(s, s', m, f)
  {
    hide Agrees, Stand, Replay, Targets, After;
    forall x: nat, y: nat | InRange(s, x, y)
      ensures var scale := BookAt(s, x, y).scale;
              Agrees(s'.events[x].markets[y].book,
                     StandAfter(scale, Stand(scale, s.seen, f, x, y), Replay(scale, s.seen, f, x, y), m, |s.seen|, f,
                                x, y))
    {
      assert StandsAt(s, f, x, y);
    }
  }

  lemma LossStands(s: ShardState, s': ShardState, m: Message, f: Frames, e: nat, i: nat)
    requires AllStand(s, f) && SameShapes(s, s') && InRange(s, e, i)
    requires s'.events == s.events[e := InvalidateOne(s.events[e], i).0]
    requires forall x: nat, y: nat :: Targets(m, x, y) <==> x == e && y == i
    requires !(m.Frame? && f.content(m.handle).GoodFrame?)
    ensures StandsMove(s, s', m, f)
  {
    hide Stand, Replay, Targets, StandsMove, SameShape;
    assert StandsAt(s, f, e, i);
    assert Targets(m, e, i);
    OneStands(s, s', m, f, e, i);
  }

  lemma BookStands(s: ShardState, s': ShardState, h: Handle, f: Frames)
    requires AllStand(s, f) && ShardTracks(s, f) && Running(s.run) && SameShapes(s, s')
    requires FrameTarget(s, h) && IsBook(h.kind) && f.content(h).GoodFrame? && SensibleFor(f, h)
    requires s'.events ==
             s.events[h.eventIndex := ApplyEvent(s.events[h.eventIndex], h.marketIndex, f.content(h).parsed).0]
    ensures StandsMove(s, s', Frame(h), f)
  {
    var (e, i) := (h.eventIndex, h.marketIndex);
    assert StandsAt(s, f, e, i) && TracksAt(s, f, e, i);
    hide Stand, Replay, StandsMove, SameShape, ApplyBook, Agrees, Tracks, StandAfter, ShardTracks, EventUsable;
    var scale := BookAt(s, e, i).scale;
    UpdateAgrees(BookAt(s, e, i), Stand(scale, s.seen, f, e, i), Replay(scale, s.seen, f, e, i), Frame(h), |s.seen|, f,
                 e, i);
    OneStands(s, s', Frame(h), f, e, i);
  }

  lemma {:induction false} FirstLost(ev: EventState, n: nat)
    requires n <= |ev.markets|
    ensures forall i :: 0 <= i < n ==> InvalidateFirst(ev, n).0.markets[i].book.sync.AwaitingRecovery?
  {
    if n > 0 { FirstLost(ev, n - 1); }
  }

  predicate LostUpTo(es: seq<EventState>, n: nat)
    requires n <= |es|
  {
    forall e, i :: 0 <= e < n && 0 <= i < |es[e].markets| ==> es[e].markets[i].book.sync.AwaitingRecovery?
  }

  lemma {:induction false} EventsLost(events: seq<EventState>, n: nat)
    requires n <= |events|
    ensures LostUpTo(InvalidateEvents(events, n).0, n)
  {
    if n > 0 {
      EventsLost(events, n - 1);
      var es := InvalidateEvents(events, n - 1).0;
      FirstLost(es[n - 1], |es[n - 1].markets|);
    }
  }

  lemma SubscriptionStands(s: ShardState, s': ShardState, b: SubscriptionBarrier, f: Frames)
    requires AllStand(s, f) && SameShapes(s, s') && s'.events == InvalidateEvents(s.events, |s.events|).0
    ensures StandsMove(s, s', Subscription(b), f)
  {
    hide Stand, Replay, InvalidateEvents;
    EventsLost(s.events, |s.events|);
    forall e: nat, i: nat | InRange(s, e, i)
      ensures s'.events[e].markets[i].book.sync.AwaitingRecovery?
    {
      assert SameShape(s.events[e], s'.events[e]);
    }
  }

  lemma PlainStands(s: ShardState, s': ShardState, m: Message, f: Frames)
    requires AllStand(s, f) && s'.events == s.events && SameShapes(s, s')
    requires forall x: nat, y: nat :: !Targets(m, x, y)
    ensures StandsMove(s, s', m, f)
  {
    hide Agrees, Stand, Replay, Targets, After;
    forall e: nat, i: nat | InRange(s, e, i) ensures StandsAt(s, f, e, i) {}
  }

  lemma MovesShapes(s: ShardState, s': ShardState, m: Message, f: Frames)
    requires Moves(s, s', m, f)
    ensures SameShapes(s, s')
  {
    hide Tracks, SameShape, EventOk;
  }

  lemma DispatchStands(s: ShardState, q: Answers, f: Frames, m: Message)
    requires AllStand(s, f) && ShardTracks(s, f) && Sensible(f) && Running(s.run) && Running(Dispatch(s, q, f, m).run)
    ensures var s' := Dispatch(s, q, f, m).(seen := s.seen + [m]);
            SameShapes(s, s') && AllStand(s', f) && Aimed(s, m)
  {
    hide AllStand, ShardTracks, Moves, OnFrame, OnBarrier, OnSubscription, StandsMove, SameShapes;
    var s' := Dispatch(s, q, f, m).(seen := s.seen + [m]);
    match m
    case Frame(h) => assert SensibleFor(f, h); FrameStands(s, q, f, h); MovesStand(s, s', m, f);
    case MarketBarrier(b) => BarrierStands(s, q, f, b); MovesStand(s, s', m, f);
    case Subscription(b) => SubscribedStands(s, q, f, b); MovesStand(s, s', m, f);
  }

  lemma FrameStands(s: ShardState, q: Answers, f: Frames, h: Handle)
    requires AllStand(s, f) && ShardTracks(s, f) && Running(s.run) && SensibleFor(f, h)
    requires Running(OnFrame(s, q, f, h).run)
    ensures var s' := OnFrame(s, q, f, h).(seen := s.seen + [Frame(h)]);
            SameShapes(s, s') && StandsMove(s, s', Frame(h), f) && FrameTarget(s, h)
  {
    hide AllStand, ShardTracks, Moves, StandsMove, SameShapes, LoseFrame, ApplyFrame, InvalidateOne, ApplyEvent;
    var s' := OnFrame(s, q, f, h).(seen := s.seen + [Frame(h)]);
    FrameMoves(s, q, f, h);
    MovesShapes(s, s', Frame(h), f);
    if !IsBook(h.kind) {
      PlainFrame(s, q, f, h);
      PlainStands(s, s', Frame(h), f);
    } else if f.content(h).GoodFrame? {
      ApplyFrameShape(s, q, h, f.content(h).parsed);
      BookStands(s, s', h, f);
    } else {
      LoseFrameShape(s, q, h, if f.content(h).NoFrame? then SHARD_FRAME_MISSING else SHARD_PARSE_FAILURE);
      LossStands(s, s', Frame(h), f, h.eventIndex, h.marketIndex);
    }
  }

  lemma BarrierStands(s: ShardState, q: Answers, f: Frames, b: Barrier)
    requires AllStand(s, f) && ShardTracks(s, f) && Running(s.run) && Running(OnBarrier(s, q, b).run)
    ensures var s' := OnBarrier(s, q, b).(seen := s.seen + [MarketBarrier(b)]);
            SameShapes(s, s') && StandsMove(s, s', MarketBarrier(b), f) && BarrierTarget(s, b)
  {
    hide AllStand, ShardTracks, Moves, StandsMove, SameShapes, ReportLoss, InvalidateOne;
    var s' := OnBarrier(s, q, b).(seen := s.seen + [MarketBarrier(b)]);
    BarrierMoves(s, q, f, b);
    MovesShapes(s, s', MarketBarrier(b), f);
    var (ev, t) := InvalidateOne(s.events[b.eventIndex], b.marketIndex);
    LossKeeps(WithEvent(s, b.eventIndex, ev), q, t, ev.revision, b.incident, b.market, b.event, b.reason);
    LossStands(s, s', MarketBarrier(b), f, b.eventIndex, b.marketIndex);
  }

  lemma SubscribedStands(s: ShardState, q: Answers, f: Frames, b: SubscriptionBarrier)
    requires AllStand(s, f) && ShardTracks(s, f) && Running(s.run) && Running(OnSubscription(s, q, b).run)
    ensures var s' := OnSubscription(s, q, b).(seen := s.seen + [Subscription(b)]);
            SameShapes(s, s') && StandsMove(s, s', Subscription(b), f)
  {
    hide AllStand, ShardTracks, Moves, StandsMove, SameShapes, InvalidateEvents;
    var s' := OnSubscription(s, q, b).(seen := s.seen + [Subscription(b)]);
    SubscriptionHandled(s, q, f, b);
    MovesShapes(s, s', Subscription(b), f);
    SubscriptionStands(s, s', b, f);
  }

  // ------------------------------------------------------------------- the invariant

  /** What was told and what is owed grow together. */
  lemma StaysSquare(s: ShardState, s': ShardState, f: Frames, m: Message)
    requires Square(s, f) && LayoutOf(s'.events) == LayoutOf(s.events) && s'.seen == s.seen + [m]
    requires var due := Due(LayoutOf(s.events), s.seen, f, m, s.universe, s.shard, s.nextIncident);
             Tells(s, s', due) && s'.nextIncident == s.nextIncident + if m.Frame? then |due| else 0
    ensures Square(s', f)
  {
    hide LayoutOf, Told, Gone, Owed, Own, ReportsIn;
    var layout := LayoutOf(s.events);
    var due := Due(layout, s.seen, f, m, s.universe, s.shard, s.nextIncident);
    OwedNext(layout, s.seen, f, m, s.universe, s.shard, First(s, f));
    assert First(s', f) == First(s, f);
    if due != [] {
      assert Told(s') == Told(s) + [due[0]];
      ReportsNext(Told(s), due[0], s.universe);
    } else if Told(s') != Told(s) {
      assert Told(s) + due == Told(s);
      var st: Status :| st.SnapshotApplied? && st.universe == s.universe && Told(s') == Told(s) + [st];
      ReportsNext(Told(s), st, s.universe);
    }
  }

  lemma DispatchReporting(s: ShardState, q: Answers, f: Frames, m: Message)
    requires Reporting(s, f) && ShardTracks(s, f) && Sensible(f) && Pumps(s.run) && s.pending.None?
    ensures Reporting(Dispatch(s, q, f, m).(seen := s.seen + [m]), f)
  {
    hide AllStand, ShardTracks, Dispatch, SameShapes, Square, AllAimed, LayoutOf, Tells, Due, Told;
    var s1 := Dispatch(s, q, f, m);
    var s' := s1.(seen := s.seen + [m]);
    DispatchNow(s, q, f, m);
    assert Told(s') == Told(s1) by { SameTold(s1, s'); }
    if Running(s'.run) {
      DispatchRuns(s, q, f, m);
      DispatchStands(s, q, f, m);
      DispatchTells(s, q, f, m);
      SameLayout(s, s');
      var due := Due(LayoutOf(s.events), s.seen, f, m, s.universe, s.shard, s.nextIncident);
      SeenTells(s, s1, s', due);
      StillAimed(s, s', m);
      StaysSquare(s, s', f, m);
    }
  }

  lemma SameTold(s: ShardState, s': ShardState)
    requires s'.statuses == s.statuses && s'.pending == s.pending
    ensures Told(s') == Told(s)
  {
  }

  lemma SeenTells(s: ShardState, s1: ShardState, s': ShardState, due: seq<Status>)
    requires Tells(s, s1, due) && s' == s1.(seen := s'.seen)
    ensures Tells(s, s', due) && s'.universe == s.universe && s'.shard == s.shard
  {
    SameTold(s1, s');
    hide Told;
  }

  /** A shard that runs after a message ran before it. */
  lemma DispatchRuns(s: ShardState, q: Answers, f: Frames, m: Message)
    requires Pumps(s.run) && Running(Dispatch(s, q, f, m).run)
    ensures Running(s.run)
  {
    hide LoseFrame, ApplyFrame, ReportLoss, InvalidateOne, InvalidateEvents;
    match m
    case Frame(h) =>
    case MarketBarrier(b) =>
      if BarrierTarget(s, b) {
        var (ev, t) := InvalidateOne(s.events[b.eventIndex], b.marketIndex);
        LossKeeps(WithEvent(s, b.eventIndex, ev), q, t, ev.revision, b.incident, b.market, b.event, b.reason);
      }
    case Subscription(_) =>
  }

  lemma SameReporting(s: ShardState, s': ShardState, f: Frames)
    requires Reporting(s, f) && Told(s') == Told(s) && s'.events == s.events && s'.seen == s.seen
    requires s'.universe == s.universe && s'.shard == s.shard && s'.nextIncident == s.nextIncident
    requires (Running(s'.run) ==> Running(s.run)) && (s'.run.Uninstalled? ==> s.run.Uninstalled?)
    ensures Reporting(s', f)
  {
    hide Told, Stand, Own, Owed, LayoutOf;
    if Running(s'.run) {
      forall e: nat, i: nat | InRange(s', e, i) ensures StandsAt(s', f, e, i) { assert StandsAt(s, f, e, i); }
      forall n | 0 <= n < |s'.seen| ensures Aimed(s', s'.seen[n]) { assert Aimed(s, s.seen[n]); }
    }
  }

  lemma InstallReporting(s: ShardState, f: Frames, universe: nat, events: seq<EventState>)
    requires FromNow(s) && FreshEvents(events) && s.universe < universe
    ensures Reporting(s.(run := Live, universe := universe, events := events, seen := []), f)
  {
    var s' := s.(run := Live, universe := universe, events := events, seen := []);
    SameTold(s, s');
    NoReportsIn(Told(s'), universe);
    hide Told, LayoutOf;
    forall e: nat, i: nat | InRange(s', e, i) ensures StandsAt(s', f, e, i) {
      assert events[e].markets[i].book.sync.AwaitingInitial?;
    }
  }

  /** Every step of a shard keeps its reports and its losses in step. */
  lemma StepReporting(s: ShardState, q: Answers, f: Frames, st: Step)
    requires Reporting(s, f) && ShardInv(s, f) && Sensible(f) && Admissible(st)
    ensures Reporting(StepOf(s, q, f, st), f)
  {
    hide Reporting, Dispatch, Sensible, FreshEvents, ShardTracks, Told;
    match st
    case Pumped(input) =>
      var (s1, ok) := FlushStatus(s, q);
      FlushTold(s, q);
      SameReporting(s, s1, f);
      SameBooks(s, s1, f);
      if ok && Pumps(s1.run) {
        match input
        case None =>
          var s2 := s1.(run := if s1.run.Draining? then Drained else s1.run);
          SameTold(s1, s2);
          SameReporting(s1, s2, f);
        case Some(m) => DispatchReporting(s1, q, f, m);
      }
    case Obeyed(c) =>
      SameTold(s, Fault(s));
      SameReporting(s, Fault(s), f);
      if c.Install? {
        if Obey(s, c) != Fault(s) { NowOf(s, f); InstallReporting(s, f, c.universe, c.events); }
      } else {
        SameTold(s, Obey(s, c));
        SameReporting(s, Obey(s, c), f);
      }
  }

  lemma NowOf(s: ShardState, f: Frames)
    requires Reporting(s, f)
    ensures FromNow(s)
  {
  }

  lemma FlushTold(s: ShardState, q: Answers)
    ensures Told(FlushStatus(s, q).0) == Told(s)
    ensures FlushStatus(s, q).1 ==> FlushStatus(s, q).0.pending.None?
  {
  }

  lemma {:induction false} StepsReporting(s: ShardState, q: Answers, f: Frames, steps: seq<Step>)
    requires Reporting(s, f) && ShardInv(s, f) && Sensible(f) && AllAdmissible(steps)
    ensures Reporting(Steps(s, q, f, steps), f)
    decreases |steps|
  {
    hide Reporting, ShardInv, StepOf, Sensible, Admissible;
    if steps != [] {
      ShardStepInv(s, q, f, steps[0]);
      StepReporting(s, q, f, steps[0]);
      StepsReporting(StepOf(s, q, f, steps[0]), q, f, steps[1..]);
    }
  }

  // -------------------------------------------------------------------- theorems

  /** In every run, the recovery reports a running shard has sent or still holds for its universe are
      exactly those its losses owe, in order. */
  lemma ReportsAreOwed(shard: nat, q: Answers, f: Frames, steps: seq<Step>)
    requires Sensible(f) && AllAdmissible(steps)
    ensures var s := Steps(InitialShard(shard), q, f, steps);
            Reporting(s, f) && Coherent(s)
            && (Running(s.run) ==>
                  && First(s, f) >= 0
                  && ReportsIn(Told(s), s.universe) ==
                     Owed(LayoutOf(s.events), s.seen, f, s.universe, s.shard, First(s, f)))
  {
    hide Steps, ShardTracks, Coherent, AllStand, LayoutOf, Owed, Own, ReportsIn;
    InitialShardInv(shard, f);
    StepsInv(InitialShard(shard), q, f, steps);
    StepsReporting(InitialShard(shard), q, f, steps);
  }

  predicate Names(st: Status, event: nat, market: nat) {
    st.RecoveryNeeded? && st.event == event && st.market == market
  }

  /** Some report from number `from` on names the market. */
  predicate NamesFrom(told: seq<Status>, from: nat, event: nat, market: nat) {
    exists x :: from <= x < |told| && Names(told[x], event, market)
  }

  /** No other market of its event has the id of market (e, i). */
  predicate OwnId(s: ShardState, e: nat, i: nat)
    requires InRange(s, e, i)
  {
    forall j :: 0 <= j < |s.events[e].markets| && j != i ==> s.events[e].markets[j].id != s.events[e].markets[i].id
  }

  /** The shard told of market (e, i), or holds that report, since message number `n`. */
  predicate ToldSince(s: ShardState, f: Frames, n: nat, e: nat, i: nat)
    requires InRange(s, e, i) && n <= |s.seen| && First(s, f) >= 0
  {
    NamesFrom(ReportsIn(Told(s), s.universe),
              |Owed(LayoutOf(s.events), s.seen[..n], f, s.universe, s.shard, First(s, f))|,
              s.events[e].id, s.events[e].markets[i].id)
  }

  lemma {:induction false} OwedPrefix(layout: seq<seq<Scale>>, ms: seq<Message>, f: Frames, universe: nat, shard: nat,
                                      first: nat, n: nat)
    requires n <= |ms|
    ensures Owed(layout, ms[..n], f, universe, shard, first) <= Owed(layout, ms, f, universe, shard, first)
  {
    if n == |ms| {
      assert ms[..n] == ms;
    } else {
      var front := ms[..|ms| - 1];
      assert front[..n] == ms[..n];
      OwedPrefix(layout, front, f, universe, shard, first, n);
    }
  }

  /** When no message from `n` on owes a report naming a market, none of the later reports names it. */
  lemma {:induction false} OwedElsewhere(layout: seq<seq<Scale>>, ms: seq<Message>, f: Frames, universe: nat,
                                         shard: nat, first: nat, n: nat, event: nat, market: nat)
    requires n <= |ms|
    requires forall y, next: nat :: n <= y < |ms| ==>
               forall x :: 0 <= x < |Due(layout, ms[..y], f, ms[y], universe, shard, next)| ==>
                 !Names(Due(layout, ms[..y], f, ms[y], universe, shard, next)[x], event, market)
    ensures !NamesFrom(Owed(layout, ms, f, universe, shard, first),
                       |Owed(layout, ms[..n], f, universe, shard, first)|, event, market)
  {
    hide Due;
    if n == |ms| {
      assert ms[..n] == ms;
    } else {
      var front := ms[..|ms| - 1];
      assert front[..n] == ms[..n];
      forall y, next: nat | n <= y < |front|
        ensures forall x :: 0 <= x < |Due(layout, front[..y], f, front[y], universe, shard, next)| ==>
                  !Names(Due(layout, front[..y], f, front[y], universe, shard, next)[x], event, market)
      {
        assert front[..y] == ms[..y] && front[y] == ms[y];
      }
      OwedElsewhere(layout, front, f, universe, shard, first, n, event, market);
      OwedPrefix(layout, front, f, universe, shard, first, n);
      var (y, next) := (|front|, first + Own(layout, front, f));
      assert ms[..y] == front;
      var last := Due(layout, front, f, ms[y], universe, shard, next);
      assert forall x :: 0 <= x < |last| ==> !Names(last[x], event, market);
    }
  }

  /** A loss that can be reported is reported by the message that made it. */
  lemma LossIsOwed(s: ShardState, f: Frames, e: nat, i: nat, n: nat)
    requires InRange(s, e, i) && AllAimed(s) && Square(s, f) && n < |s.seen|
    requires Targets(s.seen[n], e, i) && Reportable(s.seen[n], f)
    requires !Stand(BookAt(s, e, i).scale, s.seen[..n], f, e, i).Lost?
    ensures ToldSince(s, f, n, e, i)
  {
    hide Stand, Owed, Own, ReportsIn, Told;
    var (layout, first, ms) := (LayoutOf(s.events), First(s, f), s.seen);
    assert ms[..n + 1] == ms[..n] + [ms[n]];
    OwedNext(layout, ms[..n], f, ms[n], s.universe, s.shard, first);
    OwedPrefix(layout, ms, f, s.universe, s.shard, first, n + 1);
    assert Aimed(s, ms[n]);
    var before := |Owed(layout, ms[..n], f, s.universe, s.shard, first)|;
    assert Names(Owed(layout, ms, f, s.universe, s.shard, first)[before], s.events[e].id, s.events[e].markets[i].id);
  }

  /** A loss nobody reports: nothing later names the market while it stays lost. */
  lemma LossIsUnowed(s: ShardState, f: Frames, e: nat, i: nat, n: nat)
    requires InRange(s, e, i) && AllAimed(s) && Square(s, f) && DistinctEvents(s.events) && OwnId(s, e, i)
    requires n < |s.seen| && !Reportable(s.seen[n], f)
    requires forall x :: n < x <= |s.seen| ==> Stand(BookAt(s, e, i).scale, s.seen[..x], f, e, i).Lost?
    ensures !ToldSince(s, f, n, e, i)
  {
    hide Stand, Owed, Own, ReportsIn, Told;
    var (layout, ms) := (LayoutOf(s.events), s.seen);
    var (event, market) := (s.events[e].id, s.events[e].markets[i].id);
    forall y, next: nat | n <= y < |ms|
      ensures forall x :: 0 <= x < |Due(layout, ms[..y], f, ms[y], s.universe, s.shard, next)| ==>
                !Names(Due(layout, ms[..y], f, ms[y], s.universe, s.shard, next)[x], event, market)
    {
      assert Aimed(s, ms[y]);
      if y > n { assert Stand(BookAt(s, e, i).scale, ms[..y], f, e, i).Lost?; }
    }
    OwedElsewhere(layout, ms, f, s.universe, s.shard, First(s, f), n, event, market);
    assert ReportsIn(Told(s), s.universe) == Owed(layout, ms, f, s.universe, s.shard, First(s, f));
  }

  /** In every run: a running shard's book awaits recovery because of one message it has seen, and the
      shard has told the control plane of that loss, or holds the report, if and only if the message
      is a barrier for the market or a frame that was missing or did not parse.  A subscription barrier
      and an update refused when it is applied are not reported, and neither is any later loss of the
      market until a snapshot restores it. */
  lemma LossReportedIff(shard: nat, q: Answers, f: Frames, steps: seq<Step>, e: nat, i: nat)
    requires Sensible(f) && AllAdmissible(steps)
    ensures var s := Steps(InitialShard(shard), q, f, steps);
            Running(s.run) && InRange(s, e, i) ==>
              var c := Stand(BookAt(s, e, i).scale, s.seen, f, e, i);
              && (BookAt(s, e, i).sync.AwaitingRecovery? <==> c.Lost?)
              && (c.Lost? ==>
                    && c.at < |s.seen| && Targets(s.seen[c.at], e, i) && First(s, f) >= 0
                    && (OwnId(s, e, i) ==> (ToldSince(s, f, c.at, e, i) <==> Reportable(s.seen[c.at], f))))
  {
    hide Steps, Stand, Told, Owed, Own, ReportsIn, ToldSince, LayoutOf, Reportable;
    ReportsAreOwed(shard, q, f, steps);
    var s := Steps(InitialShard(shard), q, f, steps);
    if Running(s.run) && InRange(s, e, i) {
      assert StandsAt(s, f, e, i);
      var scale := BookAt(s, e, i).scale;
      var c := Stand(scale, s.seen, f, e, i);
      if c.Lost? {
        forall x | c.at < x <= |s.seen| ensures Stand(scale, s.seen[..x], f, e, i).Lost? {
          LostSince(scale, s.seen, f, e, i, x);
        }
        LostSince(scale, s.seen, f, e, i, 0);
        if Reportable(s.seen[c.at], f) {
          LossIsOwed(s, f, e, i, c.at);
        } else if OwnId(s, e, i) {
          LossIsUnowed(s, f, e, i, c.at);
        }
      }
    }
  }

  // ------------------------------------------------------------- a loss nobody reports

  // A snapshot of an empty book, and deltas that take away what is not there.
  function RefusedUpdates(h: Handle): Content {
    if h.kind.SnapshotFrame? then GoodFrame(BookUpdate(Snapshot([], [])))
    else if h.kind.DeltaFrame? then GoodFrame(BookUpdate(Delta(Bid, 100, -5)))
    else NoFrame
  }

  const AllAccepted := Answers((k: nat) => true)
  const LossBarrier := Barrier(1, IncidentKey(FromRouter, 0, 1), 1, 3, 9, 5, 0, 0, 0, ROUTER_TO_SHARD_DELIVERY_LOSS)

  // The snapshot is applied, the delta is refused, and then the router reports a lost frame.
  const RefusedRun: seq<Step> := [
    Obeyed(Shard.Command.Install(1, 0, [P.OneMarket])), Pumped(Some(Frame(P.FrameOf(SnapshotFrame, 1)))),
    Pumped(Some(Frame(P.FrameOf(DeltaFrame, 2)))), Pumped(Some(MarketBarrier(LossBarrier)))]

  predicate OneBook(s: ShardState, sync: Sync) {
    && s.run.Live? && s.universe == 1 && s.shard == 0 && s.pending.None? && s.statuses == []
    && |s.events| == 1 && P.EventShape(s.events[0]) && s.events[0].markets[0].book.sync == sync
    && s.events[0].markets[0].book.bids == Zeros(|s.events[0].markets[0].book.bids|)
  }

  lemma FrameApplied(s: ShardState, f: Frames, h: Handle, was: Sync, sync: Sync)
    requires OneBook(s, was) && FrameTarget(s, h) && h.recovery == 0
    requires f.content(h).GoodFrame? && f.content(h).parsed.BookUpdate?
    requires var b := ApplyBook(s.events[0].markets[0].book, f.content(h).parsed.event).0;
             b.sync == sync && b.scale.LinearCents? && b.bids == Zeros(|b.bids|)
    ensures OneBook(StepOf(s, AllAccepted, f, Pumped(Some(Frame(h)))), sync)
  {
    hide ApplyFrame, ApplyBook, EventUsable;
    ApplyFrameShape(s, AllAccepted, h, f.content(h).parsed);
    ApplyTells(s, AllAccepted, h, f.content(h).parsed);
  }

  lemma EmptySnapshot(b: KalshiBook)
    requires b.scale.LinearCents?
    ensures var b' := ApplySnapshot(b, [], []).0;
            b'.sync.Synchronized? && b'.scale.LinearCents? && b'.bids == Zeros(|b'.bids|)
  {
  }

  lemma NegativeDelta(b: KalshiBook)
    requires Usable(b) && b.bids == Zeros(|b.bids|)
    ensures var b' := ApplyDelta(b, Bid, 100, -5).0;
            b'.sync.AwaitingRecovery? && b'.scale == b.scale && b'.bids == Zeros(|b'.bids|)
  {
  }

  /** A barrier for a market that awaits recovery already. */
  lemma BarrierUnheard(s: ShardState, f: Frames)
    requires OneBook(s, AwaitingRecovery)
    ensures OneBook(StepOf(s, AllAccepted, f, Pumped(Some(MarketBarrier(LossBarrier)))), AwaitingRecovery)
  {
    assert s.events[0 := s.events[0]] == s.events;
  }

  lemma FourSteps(s: ShardState, q: Answers, f: Frames, r: seq<Step>)
    requires |r| == 4
    ensures Steps(s, q, f, r) == StepOf(StepOf(StepOf(StepOf(s, q, f, r[0]), q, f, r[1]), q, f, r[2]), q, f, r[3])
  {
    hide StepOf;
    var s1 := StepOf(s, q, f, r[0]);
    var s2 := StepOf(s1, q, f, r[1]);
    var s3 := StepOf(s2, q, f, r[2]);
    assert r[1..][1..] == r[2..] && r[2..][1..] == r[3..] && r[3..][1..] == [];
    var s4 := StepOf(s3, q, f, r[3]);
    assert Steps(s3, q, f, r[3..]) == Steps(s4, q, f, []) == s4;
    assert Steps(s2, q, f, r[2..]) == Steps(s3, q, f, r[3..]);
    assert Steps(s1, q, f, r[1..]) == Steps(s2, q, f, r[2..]);
  }

  /** A run in which a book is lost and nobody is told: the update was refused when it was applied, and
      not even a later barrier for the market is reported. */
  lemma RefusedUpdateGoesUnreported()
    ensures Sensible(Frames(RefusedUpdates)) && AllAdmissible(RefusedRun)
    ensures var s := Steps(InitialShard(0), AllAccepted, Frames(RefusedUpdates), RefusedRun);
            Running(s.run) && InRange(s, 0, 0) && BookAt(s, 0, 0).sync.AwaitingRecovery? && Told(s) == []
  {
    var (f, q, r) := (Frames(RefusedUpdates), AllAccepted, RefusedRun);
    var (h1, h2) := (P.FrameOf(SnapshotFrame, 1), P.FrameOf(DeltaFrame, 2));
    P.BlankIsOk();
    var s1 := StepOf(InitialShard(0), q, f, r[0]);
    assert OneBook(s1, AwaitingInitial);
    EmptySnapshot(s1.events[0].markets[0].book);
    hide Steps, StepOf, ApplySnapshot, ApplyDelta, BookOk;
    FrameApplied(s1, f, h1, AwaitingInitial, Synchronized);
    var s2 := StepOf(s1, q, f, r[1]);
    NegativeDelta(s2.events[0].markets[0].book);
    FrameApplied(s2, f, h2, Synchronized, AwaitingRecovery);
    var s3 := StepOf(s2, q, f, r[2]);
    BarrierUnheard(s3, f);
    FourSteps(InitialShard(0), q, f, r);
  }
}
