/** An event as the mutable object the source keeps: books and revision are updated in place, and
    each method computes the operation of module Event. */
module EventObject {
  import opened Wrappers
  import opened Bits
  import opened MarketData
  import opened Book
  import opened Event

  class EventBook {
    const id: nat
    const topology: Topology
    const index: nat
    var markets: seq<Market>
    var revision: nat

    function State(): EventState
      reads this
    {
      EventState(id, topology, index, markets, revision)
    }

    constructor (ev: EventState)
      ensures State() == ev
    {
      id, topology, index, markets, revision := ev.id, ev.topology, ev.index, ev.markets, ev.revision;
    }

    method IsUsable() returns (usable: bool)
      ensures usable == EventUsable(State())
    {
      usable := markets != [];
      for i := 0 to |markets|
        invariant usable <==> markets != [] && forall k :: 0 <= k < i ==> Usable(markets[k].book)
      {
        if !Usable(markets[i].book) {
          usable := false;
        }
      }
    }

    /** One side of a snapshot written into the level array of a fresh book. */
    static method InstallSide(blank: KalshiBook, side: seq<Level>) returns (levels: Option<seq<nat>>)
      ensures levels == Install(blank, blank.bids, side)
    {
      hide GetIndex;
      var row: seq<nat> := blank.bids;
      for k := 0 to |side|
        invariant Install(blank, blank.bids, side) == Install(blank, row, side[k..])
      {
        assert side[k..][0] == side[k] && side[k..][1..] == side[k + 1..];
        var i := GetIndex(blank, side[k].price);
        if i.None? || i.value >= |row| {
          return None;
        }
        row := row[i.value := side[k].quantity];
      }
      assert side[|side|..] == [];
      return Some(row);
    }

    method ApplySnapshotTo(i: nat, bids: seq<Level>, asks: seq<Level>) returns (r: ApplyResult)
      requires i < |markets|
      modifies this`markets
      ensures State() == old(WithBook(State(), i, ApplySnapshot(markets[i].book, bids, asks).0))
      ensures r == old(ApplySnapshot(markets[i].book, bids, asks).1)
    {
      hide Install, Blank;
      var b := markets[i].book;
      if b.scale.UnknownScale? {
        assert markets[i := markets[i].(book := b)] == markets;
        return RejectSnapshot(b, InvalidScale).1;
      }
      var candidate := BuildGrid(b.scale);
      BlankSides(b.scale);
      var bids' := InstallSide(candidate, bids);
      var asks' := InstallSide(candidate, asks);
      if bids'.None? || asks'.None? {
        var (rejected, result) := RejectSnapshot(b, InvalidPrice);
        markets := markets[i := markets[i].(book := rejected)];
        return result;
      }
      r := ApplyResult(Applied,
                       if Usable(b) then NoTransition
                       else if b.sync.AwaitingInitial? then InitialInstalled
                       else Recovered,
                       NoApplyReason);
      markets :=
        markets[i := markets[i].(book := candidate.(bids := bids'.value, asks := asks'.value, sync := Synchronized))];
    }

    method RejectDeltaOf(i: nat, reason: ApplyReason) returns (r: ApplyResult)
      requires i < |markets|
      modifies this`markets
      ensures State() == old(WithBook(State(), i, RejectDelta(markets[i].book, reason).0))
      ensures r == old(RejectDelta(markets[i].book, reason).1)
    {
      var b := markets[i].book;
      r := ApplyResult(Rejected, if Usable(b) then BecameUnusable else NoTransition, reason);
      markets := markets[i := markets[i].(book := Invalidated(b))];
    }

    method ApplyDeltaTo(i: nat, side: Side, price: nat, quantity: int) returns (r: ApplyResult)
      requires i < |markets|
      modifies this`markets
      ensures State() == old(WithBook(State(), i, ApplyDelta(markets[i].book, side, price, quantity).0))
      ensures r == old(ApplyDelta(markets[i].book, side, price, quantity).1)
    {
      hide RejectDelta, GetIndex;
      var b := markets[i].book;
      if !Usable(b) {
        assert markets[i := markets[i].(book := b)] == markets;
        return ApplyResult(Ignored, NoTransition, MissingSnapshot);
      }
      var at := GetIndex(b, price);
      if at.None? || at.value >= |b.bids| || at.value >= |b.asks| {
        r := RejectDeltaOf(i, InvalidPrice);
        return;
      }
      if side.UnknownSide? {
        r := RejectDeltaOf(i, InvalidSide);
        return;
      }
      var level := if side.Bid? then b.bids[at.value] else b.asks[at.value];
      if quantity < 0 {
        var remove := -(quantity + 1) + 1;
        if level < remove {
          r := RejectDeltaOf(i, NegativeLevel);
          return;
        }
        level := level - remove;
      } else {
        if level > U64_MAX - quantity {
          r := RejectDeltaOf(i, Overflow);
          return;
        }
        level := level + quantity;
      }
      if side.Bid? {
        b := b.(bids := b.bids[at.value := level]);
      } else {
        b := b.(asks := b.asks[at.value := level]);
      }
      markets := markets[i := markets[i].(book := b)];
      r := ApplyResult(Applied, NoTransition, NoApplyReason);
    }

    /** Event::apply(). */
    method Apply(i: nat, p: Parsed) returns (result: EventResult)
      modifies this`markets, this`revision
      ensures (State(), result) == ApplyEvent(old(State()), i, p)
    {
      hide ApplySnapshot, ApplyDelta, EventUsable;
      if i >= |markets| {
        return EventResult(Rejected, NoTransition, false, false);
      }
      match p {
        case BookUpdate(e) =>
          var wasUsable := IsUsable();
          var r;
          match e {
            case Snapshot(bids, asks) => r := ApplySnapshotTo(i, bids, asks);
            case Delta(side, price, quantity) => r := ApplyDeltaTo(i, side, price, quantity);
          }
          if r.disposition.Applied? || !r.transition.NoTransition? {
            revision := revision + 1;
          }
          var isUsable := IsUsable();
          result := EventResult(r.disposition, r.transition, r.disposition.Applied?, !wasUsable && isUsable);
        case NothingParsed => result := EventResult(Rejected, NoTransition, false, false);
        case TradeUpdate => result := EventResult(Applied, NoTransition, false, false);
        case LifecycleUpdate => result := EventResult(Applied, NoTransition, false, false);
      }
    }

    /** Event::invalidate_market() on a market that exists. */
    method InvalidateMarket(i: nat) returns (t: Transition)
      requires i < |markets|
      modifies this`markets, this`revision
      ensures (State(), t) == InvalidateOne(old(State()), i)
    {
      var b := markets[i].book;
      t := InvalidationOf(b.sync);
      if !t.NoTransition? {
        markets := markets[i := markets[i].(book := Invalidated(b))];
        revision := revision + 1;
      }
    }

    /** Event::invalidate_all_markets(). */
    method InvalidateAllMarkets() returns (summary: Summary)
      modifies this`markets, this`revision
      ensures (State(), summary) == InvalidateFirst(old(State()), |old(markets)|)
    {
      summary := Summary(0, 0, 0);
      for i := 0 to |markets|
        invariant |markets| == |old(markets)| && (State(), summary) == InvalidateFirst(old(State()), i)
      {
        var t := InvalidateMarket(i);
        summary := Counted(t, summary);
      }
    }

    /** The bid loop of the projection: from the top of the grid down. */
    static method CollectBids(b: KalshiBook) returns (levels: seq<Level>)
      requires |b.bids| <= |b.tickByIndex|
      ensures levels == TopBids(b, |b.bids|, STRATEGY_DEPTH)
    {
      levels := [];
      var i: nat := |b.bids|;
      while i > 0 && |levels| < STRATEGY_DEPTH
        invariant i <= |b.bids| && |levels| <= STRATEGY_DEPTH
        invariant TopBids(b, |b.bids|, STRATEGY_DEPTH) == levels + TopBids(b, i, STRATEGY_DEPTH - |levels|)
      {
        i := i - 1;
        if b.bids[i] != 0 {
          levels := levels + [Level(b.tickByIndex[i], b.bids[i])];
        }
      }
    }

    /** The ask loop of the projection: from the bottom of the grid up. */
    static method CollectAsks(b: KalshiBook) returns (levels: seq<Level>)
      requires |b.asks| <= |b.tickByIndex|
      ensures levels == TopAsks(b, 0, STRATEGY_DEPTH)
    {
      levels := [];
      var i := 0;
      while i < |b.asks| && |levels| < STRATEGY_DEPTH
        invariant i <= |b.asks| && |levels| <= STRATEGY_DEPTH
        invariant TopAsks(b, 0, STRATEGY_DEPTH) == levels + TopAsks(b, i, STRATEGY_DEPTH - |levels|)
      {
        if b.asks[i] != 0 {
          levels := levels + [Level(b.tickByIndex[i], b.asks[i])];
        }
        i := i + 1;
      }
    }

    method ViewMarket(m: Market) returns (view: View)
      requires m.strike.Some? && |m.book.bids| <= |m.book.tickByIndex| && |m.book.asks| <= |m.book.tickByIndex|
      ensures view == ViewOf(m)
    {
      var bids := CollectBids(m.book);
      var asks := CollectAsks(m.book);
      view := View(m.id, m.index, m.strike.value, m.tradeable, bids, asks);
    }

    /** build_monotonic_pair_observation(). */
    method BuildPair(i: nat) returns (o: Option<Observation>)
      requires EventOk(State())
      ensures o == PairObservation(State(), i)
    {
      hide ViewOf;
      var usable := IsUsable();
      if !topology.MonotonicChain? || !usable || !PairOk(State(), i) {
        return None;
      }
      assert Gridded(markets[i].book) && Gridded(markets[i + 1].book);
      var easier := ViewMarket(markets[i]);
      var harder := ViewMarket(markets[i + 1]);
      return Some(Observation(id, revision, easier, harder));
    }
  }

  lemma BlankSides(scale: Scale)
    requires !scale.UnknownScale?
    ensures Blank(scale).bids == Blank(scale).asks
  {
  }
}
