/** One event: its markets' books, its revision, and the pair view strategies get of it
    (cpp/src/shard/event.cpp). */
module Event {
  import opened Wrappers
  import opened MarketData
  import opened Book

  const STRATEGY_DEPTH: nat := 4

  datatype Market = Market(id: nat, index: nat, tradeable: bool, strike: Option<int>, book: KalshiBook)
  datatype EventState = EventState(id: nat, topology: Topology, index: nat, markets: seq<Market>, revision: nat)

  datatype Parsed = BookUpdate(event: BookEvent) | TradeUpdate | LifecycleUpdate | NothingParsed

  datatype EventResult = EventResult(disposition: Disposition, transition: Transition, bookChanged: bool,
                                     becameUsable: bool)

  predicate EventUsable(ev: EventState) {
    ev.markets != [] && forall i :: 0 <= i < |ev.markets| ==> Usable(ev.markets[i].book)
  }

  function WithBook(ev: EventState, i: nat, b: KalshiBook): EventState
    requires i < |ev.markets|
  {
    ev.(markets := ev.markets[i := ev.markets[i].(book := b)])
  }

  /** Event::apply(). */
  function ApplyEvent(ev: EventState, i: nat, p: Parsed): (EventState, EventResult) {
    if i >= |ev.markets| then (ev, EventResult(Rejected, NoTransition, false, false))
    else match p
      case BookUpdate(e) =>
        var (b, r) := ApplyBook(ev.markets[i].book, e);
        var changed := r.disposition.Applied?;
        var ev1 := WithBook(ev, i, b);
        var ev2 := if changed || !r.transition.NoTransition? then ev1.(revision := ev1.revision + 1) else ev1;
        (ev2, EventResult(r.disposition, r.transition, changed, !EventUsable(ev) && EventUsable(ev2)))
      case NothingParsed => (ev, EventResult(Rejected, NoTransition, false, false))
      case _ => (ev, EventResult(Applied, NoTransition, false, false))
  }

  function InvalidationOf(sync: Sync): Transition {
    match sync
    case Synchronized => BecameUnusable
    case AwaitingInitial => RecoveryRequired
    case AwaitingRecovery => NoTransition
  }

  /** Event::invalidate_market() on a market that exists. */
  function InvalidateOne(ev: EventState, i: nat): (EventState, Transition)
    requires i < |ev.markets|
  {
    var b := ev.markets[i].book;
    var t := InvalidationOf(b.sync);
    if t.NoTransition? then (ev, t) else (WithBook(ev, i, Invalidated(b)).(revision := ev.revision + 1), t)
  }

  // How many markets a subscription barrier found in each state.
  datatype Summary = Summary(unusable: nat, required: nat, awaiting: nat)

  function Counted(t: Transition, c: Summary): Summary {
    match t
    case BecameUnusable => c.(unusable := c.unusable + 1)
    case RecoveryRequired => c.(required := c.required + 1)
    case _ => c.(awaiting := c.awaiting + 1)
  }

  /** Event::invalidate_all_markets() on the first `n` markets. */
  function InvalidateFirst(ev: EventState, n: nat): (r: (EventState, Summary))
    requires n <= |ev.markets|
    ensures |r.0.markets| == |ev.markets|
  {
    if n == 0 then (ev, Summary(0, 0, 0))
    else
      var (ev1, c) := InvalidateFirst(ev, n - 1);
      var (ev2, t) := InvalidateOne(ev1, n - 1);
      (ev2, Counted(t, c))
  }

  // ------------------------------------------------------------------ revision

  predicate EventOk(ev: EventState) { forall i :: 0 <= i < |ev.markets| ==> BookOk(ev.markets[i].book) }

  /** Nothing but books and the revision ever changes. */
  predicate SameShape(ev: EventState, ev': EventState) {
    && ev'.id == ev.id && ev'.topology == ev.topology && ev'.index == ev.index && |ev'.markets| == |ev.markets|
    && forall i :: 0 <= i < |ev.markets| ==>
         ev'.markets[i] == ev.markets[i].(book := ev'.markets[i].book)
             && ev'.markets[i].book.scale == ev.markets[i].book.scale
  }

  /** The revision never goes back, and an unchanged revision means unchanged books. */
  predicate Advances(ev: EventState, ev': EventState) {
    ev.revision <= ev'.revision && (ev'.revision == ev.revision ==> ev' == ev)
  }

  lemma BookOkApplied(b: KalshiBook, e: BookEvent)
    requires BookOk(b) && WordEvent(e)
    ensures BookOk(ApplyBook(b, e).0) && ApplyBook(b, e).0.scale == b.scale
    ensures ApplyBook(b, e).1.transition.NoTransition? && !ApplyBook(b, e).1.disposition.Applied? ==>
              ApplyBook(b, e).0 == b
  {
    match e
    case Snapshot(bids, asks) => SnapshotOk(b, bids, asks);
    case Delta(side, price, quantity) => DeltaOk(b, side, price, quantity);
  }

  lemma SnapshotOk(b: KalshiBook, bids: seq<Level>, asks: seq<Level>)
    requires BookOk(b) && WordLevels(bids) && WordLevels(asks)
    ensures var (b', r) := ApplySnapshot(b, bids, asks);
            BookOk(b') && b'.scale == b.scale && (r.transition.NoTransition? && !r.disposition.Applied? ==> b' == b)
  {
    if !b.scale.UnknownScale? {
      var blank := Blank(b.scale);
      InstallFacts(blank, blank.bids, bids);
      InstallFacts(blank, blank.asks, asks);
      InstallWord(blank, blank.bids, bids);
      InstallWord(blank, blank.asks, asks);
      hide Install, IndexByTick, TickByIndex;
    }
  }

  lemma DeltaOk(b: KalshiBook, side: Side, price: nat, quantity: int)
    requires BookOk(b)
    ensures var (b', r) := ApplyDelta(b, side, price, quantity);
            BookOk(b') && b'.scale == b.scale && (r.transition.NoTransition? && !r.disposition.Applied? ==> b' == b)
  {
    hide IndexByTick, TickByIndex;
  }

  lemma ApplyAdvances(ev: EventState, i: nat, p: Parsed)
    requires EventOk(ev) && (p.BookUpdate? ==> WordEvent(p.event))
    ensures var ev' := ApplyEvent(ev, i, p).0; EventOk(ev') && SameShape(ev, ev') && Advances(ev, ev')
  {
    if i < |ev.markets| && p.BookUpdate? {
      assert BookOk(ev.markets[i].book);
      BookOkApplied(ev.markets[i].book, p.event);
      hide ApplyBook, BookOk;
      var b := ApplyBook(ev.markets[i].book, p.event).0;
      if b == ev.markets[i].book { assert ev.markets[i := ev.markets[i].(book := b)] == ev.markets; }
    }
  }

  lemma InvalidateAdvances(ev: EventState, i: nat)
    requires EventOk(ev) && i < |ev.markets|
    ensures var ev' := InvalidateOne(ev, i).0;
            EventOk(ev') && SameShape(ev, ev') && Advances(ev, ev') && !Usable(ev'.markets[i].book)
  {
    InvalidatedTracks(ev.markets[i].book);
  }

  lemma {:induction false} InvalidateFirstAdvances(ev: EventState, n: nat)
    requires EventOk(ev) && n <= |ev.markets|
    ensures var ev' := InvalidateFirst(ev, n).0;
            && EventOk(ev') && SameShape(ev, ev') && Advances(ev, ev')
            && (forall i :: 0 <= i < n ==> !Usable(ev'.markets[i].book))
            && (forall i :: n <= i < |ev.markets| ==> ev'.markets[i] == ev.markets[i])
  {
    hide BookOk;
    if n > 0 {
      InvalidateFirstAdvances(ev, n - 1);
      InvalidateAdvances(InvalidateFirst(ev, n - 1).0, n - 1);
    }
  }

  // ---------------------------------------------------------------- projection

  /** The first `n` nonzero asks from index `i` up, with their prices. */
  function TopAsks(b: KalshiBook, i: nat, n: nat): seq<Level>
    decreases |b.asks| - i
  {
    if n == 0 || i >= |b.asks| || i >= |b.tickByIndex| then []
    else if b.asks[i] == 0 then TopAsks(b, i + 1, n)
    else [Level(b.tickByIndex[i], b.asks[i])] + TopAsks(b, i + 1, n - 1)
  }

  /** The first `n` nonzero bids below index `i`, with their prices. */
  function TopBids(b: KalshiBook, i: nat, n: nat): seq<Level> {
    if n == 0 || i == 0 || i > |b.bids| || i > |b.tickByIndex| then []
    else if b.bids[i - 1] == 0 then TopBids(b, i - 1, n)
    else [Level(b.tickByIndex[i - 1], b.bids[i - 1])] + TopBids(b, i - 1, n - 1)
  }

  datatype View = View(market: nat, index: nat, strike: int, tradeable: bool, bids: seq<Level>, asks: seq<Level>)
  datatype Observation = Observation(event: nat, revision: nat, easier: View, harder: View)

  function ViewOf(m: Market): View
    requires m.strike.Some?
  {
    View(m.id, m.index, m.strike.value, m.tradeable, TopBids(m.book, |m.book.bids|, STRATEGY_DEPTH),
         TopAsks(m.book, 0, STRATEGY_DEPTH))
  }

  /** The pair (i, i+1) is a rung of the chain. */
  predicate PairOk(ev: EventState, i: nat) {
    && i + 1 < |ev.markets| && ev.markets[i].index == i && ev.markets[i + 1].index == i + 1
    && ev.markets[i].strike.Some? && ev.markets[i + 1].strike.Some?
    && ev.markets[i].strike.value < ev.markets[i + 1].strike.value
  }

  /** build_monotonic_pair_observation(), without timestamps. */
  function PairObservation(ev: EventState, i: nat): Option<Observation> {
    if !ev.topology.MonotonicChain? || !EventUsable(ev) || !PairOk(ev, i) then None
    else Some(Observation(ev.id, ev.revision, ViewOf(ev.markets[i]), ViewOf(ev.markets[i + 1])))
  }

  // ------------------------------------------- what the projection loops compute

  predicate Rising(ls: seq<Level>) { forall i, j :: 0 <= i < j < |ls| ==> ls[i].price < ls[j].price }
  predicate Falling(ls: seq<Level>) { forall i, j :: 0 <= i < j < |ls| ==> ls[i].price > ls[j].price }

  predicate Shows(ls: seq<Level>, price: nat) { exists k :: 0 <= k < |ls| && ls[k].price == price }

  /** `ls` are the best asks: real nonzero levels, strictly rising, and every other nonzero ask is
      beyond a full view. */
  ghost predicate BestAsks(b: KalshiBook, ls: seq<Level>, n: nat) {
    && |ls| <= n && Rising(ls)
    && (forall k :: 0 <= k < |ls| ==> ls[k].quantity > 0 && QuantityAt(b, Ask, ls[k].price) == ls[k].quantity)
    && (forall price: nat ::
          QuantityAt(b, Ask, price) > 0 && !Shows(ls, price) ==> |ls| == n && forall k ::
            0 <= k < n ==> ls[k].price < price)
  }

  ghost predicate BestBids(b: KalshiBook, ls: seq<Level>, n: nat) {
    && |ls| <= n && Falling(ls)
    && (forall k :: 0 <= k < |ls| ==> ls[k].quantity > 0 && QuantityAt(b, Bid, ls[k].price) == ls[k].quantity)
    && (forall price: nat ::
          QuantityAt(b, Bid, price) > 0 && !Shows(ls, price) ==> |ls| == n && forall k ::
            0 <= k < n ==> ls[k].price > price)
  }

  /** What the ask scan from index `i` has to satisfy, in terms of indices. */
  ghost predicate AskScan(b: KalshiBook, ls: seq<Level>, i: nat, n: nat) {
    && |ls| <= n && Rising(ls)
    && (forall k :: 0 <= k < |ls| ==> FoundAsk(b, i, ls[k]))
    && (forall x: nat :: i <= x && MissedAsk(b, ls, x) ==> AllBelow(ls, n, b.tickByIndex[x]))
  }

  ghost predicate FoundAsk(b: KalshiBook, i: nat, l: Level) {
    l.quantity > 0 && exists x: nat :: i <= x && AtAsk(b, x, l)
  }

  predicate AtAsk(b: KalshiBook, x: nat, l: Level) {
    x < |b.asks| && x < |b.tickByIndex| && l == Level(b.tickByIndex[x], b.asks[x])
  }

  predicate MissedAsk(b: KalshiBook, ls: seq<Level>, x: nat) {
    x < |b.asks| && x < |b.tickByIndex| && b.asks[x] > 0 && !Shows(ls, b.tickByIndex[x])
  }

  predicate AllBelow(ls: seq<Level>, n: nat, price: nat) { |ls| == n && forall k :: 0 <= k < n ==> ls[k].price < price }

  ghost predicate BidScan(b: KalshiBook, ls: seq<Level>, i: nat, n: nat) {
    && |ls| <= n && Falling(ls)
    && (forall k :: 0 <= k < |ls| ==> FoundBid(b, i, ls[k]))
    && (forall x: nat :: x < i && MissedBid(b, ls, x) ==> AllAbove(ls, n, b.tickByIndex[x]))
  }

  ghost predicate FoundBid(b: KalshiBook, i: nat, l: Level) {
    l.quantity > 0 && exists x: nat :: x < i && AtBid(b, x, l)
  }

  predicate AtBid(b: KalshiBook, x: nat, l: Level) {
    x < |b.bids| && x < |b.tickByIndex| && l == Level(b.tickByIndex[x], b.bids[x])
  }

  predicate MissedBid(b: KalshiBook, ls: seq<Level>, x: nat) {
    x < |b.bids| && x < |b.tickByIndex| && b.bids[x] > 0 && !Shows(ls, b.tickByIndex[x])
  }

  predicate AllAbove(ls: seq<Level>, n: nat, price: nat) { |ls| == n && forall k :: 0 <= k < n ==> ls[k].price > price }

  /** Prices rise with the index. */
  predicate Ordered(b: KalshiBook) {
    forall x, y :: 0 <= x < y < |b.tickByIndex| ==> b.tickByIndex[x] < b.tickByIndex[y]
  }

  lemma GriddedIsOrdered(b: KalshiBook)
    requires Gridded(b)
    ensures Ordered(b) && |b.asks| == |b.bids| == |b.tickByIndex| == LevelCount(b.scale)
  {
  }

  lemma AskNone(b: KalshiBook, i: nat, n: nat)
    requires n == 0 || i == |b.asks|
    ensures AskScan(b, [], i, n)
  {
  }

  lemma AskSkips(b: KalshiBook, ls: seq<Level>, i: nat, n: nat)
    requires i < |b.asks| && b.asks[i] == 0 && AskScan(b, ls, i + 1, n)
    ensures AskScan(b, ls, i, n)
  {
    forall k | 0 <= k < |ls| ensures FoundAsk(b, i, ls[k]) { assert FoundAsk(b, i + 1, ls[k]); }
  }

  lemma {:induction false} TopAsksScan(b: KalshiBook, i: nat, n: nat)
    requires Ordered(b) && i <= |b.asks| == |b.tickByIndex|
    ensures AskScan(b, TopAsks(b, i, n), i, n)
    decreases |b.asks| - i
  {
    hide AskScan, Ordered;
    if n == 0 || i == |b.asks| {
      AskNone(b, i, n);
    } else if b.asks[i] == 0 {
      TopAsksScan(b, i + 1, n);
      AskSkips(b, TopAsks(b, i + 1, n), i, n);
    } else {
      TopAsksScan(b, i + 1, n - 1);
      AskTakes(b, TopAsks(b, i + 1, n - 1), i, n);
    }
  }

  lemma AskTakes(b: KalshiBook, rest: seq<Level>, i: nat, n: nat)
    requires Ordered(b) && i < |b.asks| == |b.tickByIndex| && b.asks[i] > 0 && n > 0 && AskScan(b, rest, i + 1, n - 1)
    ensures AskScan(b, [Level(b.tickByIndex[i], b.asks[i])] + rest, i, n)
  {
    var first := Level(b.tickByIndex[i], b.asks[i]);
    var ls := [first] + rest;
    forall k | 0 <= k < |rest| ensures b.tickByIndex[i] < rest[k].price && FoundAsk(b, i, rest[k]) {
      assert FoundAsk(b, i + 1, rest[k]);
    }
    assert AtAsk(b, i, first);
    forall k | 0 <= k < |ls| ensures FoundAsk(b, i, ls[k]) {
      if k > 0 { assert ls[k] == rest[k - 1]; }
    }
    forall x: nat | i <= x && MissedAsk(b, ls, x) ensures AllBelow(ls, n, b.tickByIndex[x]) {
      assert ls[0].price == b.tickByIndex[i];
      ShownLater(ls, rest, b.tickByIndex[x]);
      assert MissedAsk(b, rest, x);
      assert forall k :: 1 <= k < n ==> ls[k] == rest[k - 1];
    }
  }

  lemma ShownLater(ls: seq<Level>, rest: seq<Level>, price: nat)
    requires ls != [] && rest == ls[1..]
    ensures Shows(rest, price) ==> Shows(ls, price)
  {
    if Shows(rest, price) {
      var k :| 0 <= k < |rest| && rest[k].price == price;
      assert ls[k + 1].price == price;
    }
  }

  /** The asks of a view are exactly the best asks of the book. */
  lemma AsksAreBest(b: KalshiBook, n: nat)
    requires Gridded(b)
    ensures BestAsks(b, TopAsks(b, 0, n), n)
  {
    hide IndexByTick, TickByIndex, TopAsks, Ordered;
    var ls := TopAsks(b, 0, n);
    GriddedIsOrdered(b);
    TopAsksScan(b, 0, n);
    forall k | 0 <= k < |ls| ensures ls[k].quantity > 0 && QuantityAt(b, Ask, ls[k].price) == ls[k].quantity {
      assert FoundAsk(b, 0, ls[k]);
      var x: nat :| 0 <= x && AtAsk(b, x, ls[k]);
      GridRoundTrip(b, 0, x);
    }
    forall price: nat | QuantityAt(b, Ask, price) > 0 && !Shows(ls, price)
      ensures |ls| == n && forall k :: 0 <= k < n ==> ls[k].price < price {
      GridRoundTrip(b, price, 0);
      var x := GetIndex(b, price).value;
      assert b.tickByIndex[x] == price && MissedAsk(b, ls, x);
    }
  }

  lemma BidNone(b: KalshiBook, i: nat, n: nat)
    requires n == 0 || i == 0
    ensures BidScan(b, [], i, n)
  {
  }

  lemma BidSkips(b: KalshiBook, ls: seq<Level>, i: nat, n: nat)
    requires i < |b.bids| && b.bids[i] == 0 && BidScan(b, ls, i, n)
    ensures BidScan(b, ls, i + 1, n)
  {
    forall k | 0 <= k < |ls| ensures FoundBid(b, i + 1, ls[k]) { assert FoundBid(b, i, ls[k]); }
  }

  lemma {:induction false} TopBidsScan(b: KalshiBook, i: nat, n: nat)
    requires Ordered(b) && i <= |b.bids| == |b.tickByIndex|
    ensures BidScan(b, TopBids(b, i, n), i, n)
  {
    hide BidScan, Ordered;
    if n == 0 || i == 0 {
      BidNone(b, i, n);
    } else if b.bids[i - 1] == 0 {
      TopBidsScan(b, i - 1, n);
      BidSkips(b, TopBids(b, i - 1, n), i - 1, n);
    } else {
      TopBidsScan(b, i - 1, n - 1);
      BidTakes(b, TopBids(b, i - 1, n - 1), i - 1, n);
    }
  }

  lemma BidTakes(b: KalshiBook, rest: seq<Level>, i: nat, n: nat)
    requires Ordered(b) && i < |b.bids| == |b.tickByIndex| && b.bids[i] > 0 && n > 0 && BidScan(b, rest, i, n - 1)
    ensures BidScan(b, [Level(b.tickByIndex[i], b.bids[i])] + rest, i + 1, n)
  {
    var first := Level(b.tickByIndex[i], b.bids[i]);
    var ls := [first] + rest;
    forall k | 0 <= k < |rest| ensures b.tickByIndex[i] > rest[k].price && FoundBid(b, i + 1, rest[k]) {
      assert FoundBid(b, i, rest[k]);
    }
    assert AtBid(b, i, first);
    forall k | 0 <= k < |ls| ensures FoundBid(b, i + 1, ls[k]) {
      if k > 0 { assert ls[k] == rest[k - 1]; }
    }
    forall x: nat | x < i + 1 && MissedBid(b, ls, x) ensures AllAbove(ls, n, b.tickByIndex[x]) {
      assert ls[0].price == b.tickByIndex[i];
      ShownLater(ls, rest, b.tickByIndex[x]);
      assert MissedBid(b, rest, x);
      assert forall k :: 1 <= k < n ==> ls[k] == rest[k - 1];
    }
  }

  /** The bids of a view are exactly the best bids of the book. */
  lemma BidsAreBest(b: KalshiBook, n: nat)
    requires Gridded(b)
    ensures BestBids(b, TopBids(b, |b.bids|, n), n)
  {
    hide IndexByTick, TickByIndex, TopBids, Ordered;
    var ls := TopBids(b, |b.bids|, n);
    GriddedIsOrdered(b);
    TopBidsScan(b, |b.bids|, n);
    forall k | 0 <= k < |ls| ensures ls[k].quantity > 0 && QuantityAt(b, Bid, ls[k].price) == ls[k].quantity {
      assert FoundBid(b, |b.bids|, ls[k]);
      var x: nat :| x < |b.bids| && AtBid(b, x, ls[k]);
      GridRoundTrip(b, 0, x);
    }
    forall price: nat | QuantityAt(b, Bid, price) > 0 && !Shows(ls, price)
      ensures |ls| == n && forall k :: 0 <= k < n ==> ls[k].price > price {
      GridRoundTrip(b, price, 0);
      var x := GetIndex(b, price).value;
      assert b.tickByIndex[x] == price && MissedBid(b, ls, x);
    }
  }
}
