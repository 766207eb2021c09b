/** One order book on its price grid (cpp/include/predex/shard/models.hpp, cpp/src/shard/event.cpp)
    and the reference it is measured against: the last snapshot plus the deltas since. */
module Book {
  import opened Wrappers
  import opened Bits

  const TICK_SCALE: nat := 10000
  const INVALID_INDEX: nat := 65535

  datatype Scale = UnknownScale | LinearCents | TaperedDeciCents | DeciCents
  datatype Sync = AwaitingInitial | Synchronized | AwaitingRecovery
  datatype Side = UnknownSide | Bid | Ask

  datatype Level = Level(price: nat, quantity: nat)
  datatype BookEvent = Snapshot(bids: seq<Level>, asks: seq<Level>) | Delta(side: Side, price: nat, quantity: int)

  datatype KalshiBook = KalshiBook(
    scale: Scale, sync: Sync, indexByTick: seq<nat>, tickByIndex: seq<nat>, bids: seq<nat>, asks: seq<nat>)

  datatype Disposition = Applied | Ignored | Rejected
  datatype Transition = NoTransition | InitialInstalled | Recovered | BecameUnusable | RecoveryRequired
  datatype ApplyReason = NoApplyReason | InvalidScale | InvalidPrice | InvalidSide | NegativeLevel | Overflow
                         | MissingSnapshot | InvalidMarketIndex
  datatype ApplyResult = ApplyResult(disposition: Disposition, transition: Transition, reason: ApplyReason)

  predicate Usable(b: KalshiBook) { b.sync.Synchronized? }

  // --------------------------------------------------------------------- grid

  function Divisor(scale: Scale): nat { if scale.LinearCents? then 100 else if scale.UnknownScale? then 0 else 10 }
  function LevelCount(scale: Scale): nat { if scale.LinearCents? then 101 else if scale.UnknownScale? then 0 else 1001 }

  predicate OnGrid(scale: Scale, tick: nat) { !scale.UnknownScale? && tick <= TICK_SCALE && tick % Divisor(scale) == 0 }

  function IndexByTick(scale: Scale): seq<nat>
    requires !scale.UnknownScale?
  {
    seq(TICK_SCALE + 1, t requires 0 <= t => if t % Divisor(scale) == 0 then t / Divisor(scale) else INVALID_INDEX)
  }

  function TickOf(scale: Scale, i: nat): nat { if scale.LinearCents? then 100 * i else 10 * i }

  function TickByIndex(scale: Scale): seq<nat> {
    seq(LevelCount(scale), i requires 0 <= i => TickOf(scale, i))
  }

  function Zeros(n: nat): seq<nat> { seq(n, i => 0) }

  /** The book set_index_grid() leaves: the grid of its scale and no quantity anywhere. */
  function Blank(scale: Scale): KalshiBook
    requires !scale.UnknownScale?
  {
    KalshiBook(scale, AwaitingInitial, IndexByTick(scale), TickByIndex(scale), Zeros(LevelCount(scale)),
               Zeros(LevelCount(scale)))
  }

  function GetIndex(b: KalshiBook, tick: nat): Option<nat> {
    if tick >= |b.indexByTick| || b.indexByTick[tick] == INVALID_INDEX then None else Some(b.indexByTick[tick])
  }

  function PriceAt(b: KalshiBook, i: nat): Option<nat> {
    if i >= |b.tickByIndex| then None else Some(b.tickByIndex[i])
  }

  predicate Gridded(b: KalshiBook) {
    && !b.scale.UnknownScale? && b.indexByTick == IndexByTick(b.scale) && b.tickByIndex == TickByIndex(b.scale)
    && |b.bids| == |b.asks| == LevelCount(b.scale)
  }

  /** Prices and indices of a grid are inverse: each level has one price and each price on the
      grid one level. */
  lemma GridRoundTrip(b: KalshiBook, tick: nat, i: nat)
    requires Gridded(b)
    ensures GetIndex(b, tick).Some? <==> OnGrid(b.scale, tick)
    ensures OnGrid(b.scale, tick) ==>
              GetIndex(b, tick).value < LevelCount(b.scale) && PriceAt(b, GetIndex(b, tick).value) == Some(tick)
    ensures i < LevelCount(b.scale) ==>
              PriceAt(b, i).Some? && OnGrid(b.scale, PriceAt(b, i).value) && GetIndex(b, PriceAt(b, i).value) == Some(i)
  {
    var d := Divisor(b.scale);
    if OnGrid(b.scale, tick) {
      assert b.indexByTick[tick] == tick / d;
      assert tick / d * d == tick;
    }
    if i < LevelCount(b.scale) {
      assert i * d <= TICK_SCALE && (i * d) % d == 0 && (i * d) / d == i;
      assert b.tickByIndex[i] == i * d && b.indexByTick[i * d] == i;
    }
  }

  /** set_index_grid() for a known scale, as the loop over ticks that fills both tables. */
  method BuildGrid(scale: Scale) returns (b: KalshiBook)
    requires !scale.UnknownScale?
    ensures b == Blank(scale)
  {
    var divisor, count := Divisor(scale), LevelCount(scale);
    var indexByTick := new nat[TICK_SCALE + 1](_ => INVALID_INDEX);
    var tickByIndex := new nat[count](_ => 0);
    var tick := 0;
    while tick <= TICK_SCALE
      invariant tick <= TICK_SCALE + 1
      invariant forall t :: 0 <= t < tick ==> indexByTick[t] == if t % divisor == 0 then t / divisor else INVALID_INDEX
      invariant forall t :: tick <= t <= TICK_SCALE ==> indexByTick[t] == INVALID_INDEX
      invariant forall i :: 0 <= i < count && i * divisor < tick ==> tickByIndex[i] == i * divisor
    {
      if tick % divisor == 0 {
        var i := tick / divisor;
        indexByTick[tick] := i;
        if i < count {
          tickByIndex[i] := tick;
        }
      }
      tick := tick + 1;
    }
    forall i | 0 <= i < count ensures tickByIndex[i] == i * divisor { assert i * divisor <= TICK_SCALE; }
    assert indexByTick[..] == IndexByTick(scale) && tickByIndex[..] == TickByIndex(scale);
    b := KalshiBook(scale, AwaitingInitial, indexByTick[..], tickByIndex[..], Zeros(count), Zeros(count));
  }

  // ---------------------------------------------------------------- operations

  /** The book a failed or lost message leaves. */
  function Invalidated(b: KalshiBook): KalshiBook {
    b.(sync := AwaitingRecovery, bids := Zeros(|b.bids|), asks := Zeros(|b.asks|))
  }

  /** install_level() over a side of a snapshot; none when a price is off the grid. */
  function Install(b: KalshiBook, levels: seq<nat>, side: seq<Level>): Option<seq<nat>>
    decreases |side|
  {
    if side == [] then Some(levels)
    else
      var i := GetIndex(b, side[0].price);
      if i.None? || i.value >= |levels| then None
      else Install(b, levels[i.value := side[0].quantity], side[1..])
  }

  function RejectSnapshot(b: KalshiBook, reason: ApplyReason): (KalshiBook, ApplyResult) {
    if reason.InvalidScale? then (b, ApplyResult(Rejected, NoTransition, reason))
    else
      (Invalidated(b),
       ApplyResult(Rejected,
                   if b.sync.Synchronized? then BecameUnusable else if b.sync.AwaitingInitial? then RecoveryRequired
                   else NoTransition,
                   reason))
  }

  /** apply_snapshot(). */
  function ApplySnapshot(b: KalshiBook, bids: seq<Level>, asks: seq<Level>): (KalshiBook, ApplyResult) {
    if b.scale.UnknownScale? then RejectSnapshot(b, InvalidScale)
    else
      var blank := Blank(b.scale);
      var bids' := Install(blank, blank.bids, bids);
      var asks' := Install(blank, blank.asks, asks);
      if bids'.None? || asks'.None? then RejectSnapshot(b, InvalidPrice)
      else
        (blank.(bids := bids'.value, asks := asks'.value, sync := Synchronized),
         ApplyResult(Applied,
                     if Usable(b) then NoTransition
                     else if b.sync.AwaitingInitial? then InitialInstalled
                     else Recovered,
                     NoApplyReason))
  }

  function RejectDelta(b: KalshiBook, reason: ApplyReason): (KalshiBook, ApplyResult) {
    (Invalidated(b), ApplyResult(Rejected, if Usable(b) then BecameUnusable else NoTransition, reason))
  }

  /** The new quantity of a level, or why the delta is refused. The magnitude of a negative delta is
      computed without negating the smallest 64-bit value. */
  function Shift(level: nat, quantity: int): (Option<nat>, ApplyReason) {
    if quantity < 0 then
      var remove := -(quantity + 1) + 1;
      if level < remove then (None, NegativeLevel) else (Some(level - remove), NoApplyReason)
    else if level > U64_MAX - quantity then (None, Overflow)
    else (Some(level + quantity), NoApplyReason)
  }

  /** apply_delta(). */
  function ApplyDelta(b: KalshiBook, side: Side, price: nat, quantity: int): (KalshiBook, ApplyResult) {
    if !Usable(b) then (b, ApplyResult(Ignored, NoTransition, MissingSnapshot))
    else
      var i := GetIndex(b, price);
      if i.None? || i.value >= |b.bids| || i.value >= |b.asks| then RejectDelta(b, InvalidPrice)
      else if side.UnknownSide? then RejectDelta(b, InvalidSide)
      else
        var (level, reason) := Shift(if side.Bid? then b.bids[i.value] else b.asks[i.value], quantity);
        if level.None? then RejectDelta(b, reason)
        else
          (if side.Bid? then b.(bids := b.bids[i.value := level.value]) else b.(asks := b.asks[i.value := level.value]),
           ApplyResult(Applied, NoTransition, NoApplyReason))
  }

  function ApplyBook(b: KalshiBook, e: BookEvent): (KalshiBook, ApplyResult) {
    match e
    case Snapshot(bids, asks) => ApplySnapshot(b, bids, asks)
    case Delta(side, price, quantity) => ApplyDelta(b, side, price, quantity)
  }

  // ----------------------------------------------------------------- reference

  // What is known of a market: nothing, or its last snapshot and the deltas after it.
  datatype Reference = Unknown | Known(bids: seq<Level>, asks: seq<Level>, deltas: seq<BookEvent>)

  /** The last quantity a snapshot side gives a price, 0 when it gives none. */
  function LastLevel(side: seq<Level>, price: nat): nat {
    if side == [] then 0
    else if side[|side| - 1].price == price then side[|side| - 1].quantity
    else LastLevel(side[..|side| - 1], price)
  }

  function DeltaSum(deltas: seq<BookEvent>, side: Side, price: nat): int {
    if deltas == [] then 0
    else
      var d := deltas[|deltas| - 1];
      DeltaSum(deltas[..|deltas| - 1], side, price) + if d.Delta? && d.side == side && d.price == price then d.quantity
      else 0
  }

  /** The quantity resting at a price according to the reference. */
  function Resting(r: Reference, side: Side, price: nat): int
    requires r.Known?
  {
    LastLevel(if side.Bid? then r.bids else r.asks, price) + DeltaSum(r.deltas, side, price)
  }

  predicate PricesOnGrid(scale: Scale, side: seq<Level>) {
    forall i :: 0 <= i < |side| ==> OnGrid(scale, side[i].price)
  }

  /** A delta the venue could have meant: a known side, a price on the grid, a quantity that stays a 64-bit count. */
  predicate GoodDelta(scale: Scale, r: Reference, side: Side, price: nat, quantity: int)
    requires r.Known?
  {
    !side.UnknownSide? && OnGrid(scale, price) && 0 <= Resting(r, side, price) + quantity <= U64_MAX
  }

  /** The reference after a book message; a bad one leaves nothing known. */
  function Follow(scale: Scale, r: Reference, e: BookEvent): Reference {
    match e
    case Snapshot(bids, asks) =>
      if PricesOnGrid(scale, bids) && PricesOnGrid(scale, asks) && !scale.UnknownScale? then Known(bids, asks, [])
      else Unknown
    case Delta(side, price, quantity) =>
      if r.Known? && GoodDelta(scale, r, side, price, quantity) then r.(deltas := r.deltas + [e]) else Unknown
  }

  // ---------------------------------------------------------------- agreement

  /** Quantities are 64-bit counts. */
  predicate WithinWord(levels: seq<nat>) { forall i :: 0 <= i < |levels| ==> levels[i] <= U64_MAX }

  predicate WordLevels(side: seq<Level>) { forall i :: 0 <= i < |side| ==> side[i].quantity <= U64_MAX }

  predicate WordEvent(e: BookEvent) { e.Snapshot? ==> WordLevels(e.bids) && WordLevels(e.asks) }

  /** What every book satisfies: on its grid when synchronized, empty otherwise. */
  predicate BookOk(b: KalshiBook) {
    && WithinWord(b.bids) && WithinWord(b.asks)
    && (Usable(b) ==> Gridded(b))
    && (!Usable(b) ==> b.bids == Zeros(|b.bids|) && b.asks == Zeros(|b.asks|))
  }

  function QuantityAt(b: KalshiBook, side: Side, price: nat): nat {
    var i := GetIndex(b, price);
    var levels := if side.Bid? then b.bids else b.asks;
    if i.None? || i.value >= |levels| then 0 else levels[i.value]
  }

  ghost predicate LevelsAgree(b: KalshiBook, r: Reference, side: Side)
    requires r.Known?
  {
    forall price: nat :: QuantityAt(b, side, price) == Resting(r, side, price)
  }

  /** A book is usable exactly when the reference is known, and then every price agrees. */
  ghost predicate Tracks(b: KalshiBook, r: Reference) {
    && BookOk(b) && (Usable(b) <==> r.Known?)
    && (r.Known? ==> LevelsAgree(b, r, Bid) && LevelsAgree(b, r, Ask))
  }

  lemma InvalidatedTracks(b: KalshiBook)
    ensures Tracks(Invalidated(b), Unknown)
  {
  }

  lemma {:induction false} InstallFacts(b: KalshiBook, levels: seq<nat>, side: seq<Level>)
    requires Gridded(b) && |levels| == LevelCount(b.scale)
    ensures Install(b, levels, side).Some? <==> PricesOnGrid(b.scale, side)
    ensures Install(b, levels, side).Some? ==> |Install(b, levels, side).value| == |levels|
    decreases |side|
  {
    if side != [] {
      GridRoundTrip(b, side[0].price, 0);
      var i := GetIndex(b, side[0].price);
      hide Gridded;
      if i.Some? {
        InstallFacts(b, levels[i.value := side[0].quantity], side[1..]);
        assert PricesOnGrid(b.scale, side) <==> OnGrid(b.scale, side[0].price) && PricesOnGrid(b.scale, side[1..]) by {
          assert forall k :: 1 <= k < |side| ==> side[k] == side[1..][k - 1];
        }
      }
    }
  }

  lemma {:induction false} InstallWord(b: KalshiBook, levels: seq<nat>, side: seq<Level>)
    requires WithinWord(levels) && WordLevels(side)
    ensures Install(b, levels, side).Some? ==> WithinWord(Install(b, levels, side).value)
    decreases |side|
  {
    hide GetIndex;
    if side != [] {
      var i := GetIndex(b, side[0].price);
      if i.Some? && i.value < |levels| { InstallWord(b, levels[i.value := side[0].quantity], side[1..]); }
    }
  }

  /** Installing a side leaves the last quantity it gives each price, or what was there. */
  lemma {:induction false} InstallValue(b: KalshiBook, levels: seq<nat>, side: seq<Level>, price: nat)
    requires Gridded(b) && |levels| == LevelCount(b.scale) && PricesOnGrid(b.scale, side) && OnGrid(b.scale, price)
    ensures Install(b, levels, side).Some? && |Install(b, levels, side).value| == |levels|
    ensures GetIndex(b, price).Some? && GetIndex(b, price).value < |levels|
    ensures Install(b, levels, side).value[GetIndex(b, price).value] ==
            if Mentions(side, price) then LastLevel(side, price) else levels[GetIndex(b, price).value]
    decreases |side|
  {
    GridRoundTrip(b, price, 0);
    InstallFacts(b, levels, side);
    if side != [] {
      GridRoundTrip(b, side[0].price, 0);
      var i := GetIndex(b, side[0].price).value;
      SameIndexSamePrice(b, side[0].price, price);
      assert PricesOnGrid(b.scale, side[1..]);
      InstallValue(b, levels[i := side[0].quantity], side[1..], price);
      LastLevelFirst(side, price);
    }
  }

  lemma SameIndexSamePrice(b: KalshiBook, p: nat, q: nat)
    requires Gridded(b) && OnGrid(b.scale, p) && OnGrid(b.scale, q)
    ensures GetIndex(b, p) == GetIndex(b, q) <==> p == q
  {
    GridRoundTrip(b, p, 0);
    GridRoundTrip(b, q, 0);
  }

  predicate Mentions(side: seq<Level>, price: nat) { exists i :: 0 <= i < |side| && side[i].price == price }

  lemma {:induction false} LastLevelFirst(side: seq<Level>, price: nat)
    requires side != []
    ensures Mentions(side, price) <==> side[0].price == price || Mentions(side[1..], price)
    ensures LastLevel(side, price) == if Mentions(side[1..], price) then LastLevel(side[1..], price)
            else if side[0].price == price then side[0].quantity else 0
    ensures !Mentions(side, price) ==> LastLevel(side, price) == 0
    decreases |side|
  {
    var rest := side[1..];
    if Mentions(rest, price) {
      var i :| 0 <= i < |rest| && rest[i].price == price;
      assert side[i + 1].price == price;
    }
    if Mentions(side, price) && side[0].price != price {
      var i :| 0 <= i < |side| && side[i].price == price;
      assert rest[i - 1].price == price;
    }
    if |side| == 1 {
      assert side[..0] == [] && rest == [];
    } else {
      var init := side[..|side| - 1];
      assert init[1..] == rest[..|rest| - 1] && rest[|rest| - 1] == side[|side| - 1];
      LastLevelFirst(init, price);
      if side[|side| - 1].price == price { assert rest[|rest| - 1].price == price; }
      else { MentionsInit(rest, price); }
    }
  }

  lemma MentionsInit(side: seq<Level>, price: nat)
    requires side != [] && side[|side| - 1].price != price
    ensures Mentions(side, price) <==> Mentions(side[..|side| - 1], price)
  {
    if Mentions(side, price) {
      var i :| 0 <= i < |side| && side[i].price == price;
      assert side[..|side| - 1][i].price == price;
    }
  }

  lemma {:induction false} NeverMentioned(side: seq<Level>, price: nat)
    requires !Mentions(side, price)
    ensures LastLevel(side, price) == 0
  {
    if side != [] {
      assert side[|side| - 1].price != price;
      MentionsInit(side, price);
      NeverMentioned(side[..|side| - 1], price);
    }
  }

  /** A side of a fresh snapshot agrees with the levels it lists, at every price. */
  lemma SideAgrees(scale: Scale, side: seq<Level>, price: nat)
    requires !scale.UnknownScale? && PricesOnGrid(scale, side)
    ensures var blank := Blank(scale);
            var levels := Install(blank, Zeros(LevelCount(scale)), side);
            && levels.Some? && |levels.value| == LevelCount(scale)
            && (var i := GetIndex(blank, price);
                (if i.None? || i.value >= |levels.value| then 0 else levels.value[i.value]) == LastLevel(side, price))
  {
    var blank := Blank(scale);
    InstallFacts(blank, Zeros(LevelCount(scale)), side);
    GridRoundTrip(blank, price, 0);
    if OnGrid(scale, price) {
      InstallValue(blank, Zeros(LevelCount(scale)), side, price);
    }
    if !Mentions(side, price) { NeverMentioned(side, price); }
  }

  /** A snapshot makes the book usable exactly when it is well formed, with the levels it lists. */
  lemma SnapshotTracks(b: KalshiBook, r: Reference, bids: seq<Level>, asks: seq<Level>)
    requires Tracks(b, r) && WordLevels(bids) && WordLevels(asks)
    ensures Tracks(ApplySnapshot(b, bids, asks).0, Follow(b.scale, r, Snapshot(bids, asks)))
  {
    if b.scale.UnknownScale? {
    } else {
      var blank := Blank(b.scale);
      InstallFacts(blank, blank.bids, bids);
      InstallFacts(blank, blank.asks, asks);
      var b' := ApplySnapshot(b, bids, asks).0;
      if PricesOnGrid(b.scale, bids) && PricesOnGrid(b.scale, asks) {
        var r' := Known(bids, asks, []);
        InstallWord(blank, blank.bids, bids);
        InstallWord(blank, blank.asks, asks);
        hide Install, IndexByTick, TickByIndex;
        forall price: nat
          ensures QuantityAt(b', Bid, price) == Resting(r', Bid, price)
          ensures QuantityAt(b', Ask, price) == Resting(r', Ask, price) {
          SideAgrees(b.scale, bids, price);
          SideAgrees(b.scale, asks, price);
        }
      } else {
        InvalidatedTracks(b);
      }
    }
  }

  lemma DeltaSumNext(deltas: seq<BookEvent>, d: BookEvent, side: Side, price: nat)
    ensures DeltaSum(deltas + [d], side, price) ==
            DeltaSum(deltas, side, price) + if d.Delta? && d.side == side && d.price == price then d.quantity else 0
  {
    assert (deltas + [d])[..|deltas|] == deltas;
  }

  lemma ShiftFacts(level: nat, quantity: int)
    ensures Shift(level, quantity).0.Some? <==>
              (0 <= level + quantity && (quantity >= 0 ==> level + quantity <= U64_MAX))
    ensures Shift(level, quantity).0.Some? ==> Shift(level, quantity).0.value == level + quantity
  {
  }

  /** A delta keeps a usable book in step with the reference exactly when it is good. */
  lemma DeltaTracks(b: KalshiBook, r: Reference, side: Side, price: nat, quantity: int)
    requires Tracks(b, r)
    ensures Tracks(ApplyDelta(b, side, price, quantity).0, Follow(b.scale, r, Delta(side, price, quantity)))
  {
    if Usable(b) {
      GridRoundTrip(b, price, 0);
      if OnGrid(b.scale, price) && !side.UnknownSide? {
        assert QuantityAt(b, side, price) == Resting(r, side, price);
        ShiftFacts(QuantityAt(b, side, price), quantity);
        if GoodDelta(b.scale, r, side, price, quantity) {
          GoodDeltaTracks(b, r, side, price, quantity);
        }
      }
      InvalidatedTracks(b);
    }
  }

  lemma GoodDeltaTracks(b: KalshiBook, r: Reference, side: Side, price: nat, quantity: int)
    requires Tracks(b, r) && Usable(b) && GoodDelta(b.scale, r, side, price, quantity)
    ensures Tracks(ApplyDelta(b, side, price, quantity).0, r.(deltas := r.deltas + [Delta(side, price, quantity)]))
  {
    var d := Delta(side, price, quantity);
    var r' := r.(deltas := r.deltas + [d]);
    var b' := ApplyDelta(b, side, price, quantity).0;
    GridRoundTrip(b, price, 0);
    var i := GetIndex(b, price).value;
    assert QuantityAt(b, side, price) == Resting(r, side, price);
    ShiftFacts(QuantityAt(b, side, price), quantity);
    assert b' == if side.Bid? then b.(bids := b.bids[i := QuantityAt(b, side, price) + quantity])
           else b.(asks := b.asks[i := QuantityAt(b, side, price) + quantity]);
    forall p: nat
      ensures QuantityAt(b', Bid, p) == Resting(r', Bid, p) && QuantityAt(b', Ask, p) == Resting(r', Ask, p) {
      OnePriceMoves(b, b', r, d, p);
    }
  }

  lemma OnePriceMoves(b: KalshiBook, b': KalshiBook, r: Reference, d: BookEvent, p: nat)
    requires Gridded(b) && r.Known? && d.Delta? && !d.side.UnknownSide? && OnGrid(b.scale, d.price)
    requires 0 <= QuantityAt(b, d.side, d.price) + d.quantity
    requires QuantityAt(b, Bid, p) == Resting(r, Bid, p) && QuantityAt(b, Ask, p) == Resting(r, Ask, p)
    requires GetIndex(b, d.price).Some? && GetIndex(b, d.price).value < LevelCount(b.scale)
    requires var (i, v) := (GetIndex(b, d.price).value, QuantityAt(b, d.side, d.price) + d.quantity);
             b' == if d.side.Bid? then b.(bids := b.bids[i := v]) else b.(asks := b.asks[i := v])
    ensures var r' := r.(deltas := r.deltas + [d]);
            QuantityAt(b', Bid, p) == Resting(r', Bid, p) && QuantityAt(b', Ask, p) == Resting(r', Ask, p)
  {
    hide IndexByTick, TickByIndex, LastLevel, DeltaSum, OnGrid;
    DeltaSumNext(r.deltas, d, Bid, p);
    DeltaSumNext(r.deltas, d, Ask, p);
    GridRoundTrip(b, p, 0);
    GridRoundTrip(b, d.price, 0);
    assert GetIndex(b', p) == GetIndex(b, p);
    if OnGrid(b.scale, p) { SameIndexSamePrice(b, p, d.price); }
  }
}
