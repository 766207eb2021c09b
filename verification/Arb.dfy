/** The monotonic-pair evaluator (cpp/src/strategy/monotonic_arb.cpp): which limit prices each leg
    may use, what they cost in fees, and which pair of them is chosen. */
module Arb {
  import opened Wrappers
  import opened Bits
  import opened Book
  import opened Event

  const DOLLAR: nat := 10000
  const LOTS: nat := 100

  datatype ArbConfig = ArbConfig(
    quantity: nat, minimumNet: nat, cushion: nat,
    requireContinuity: bool, maximumGap: nat,
    requireNearTop: bool, nearTopWindow: nat, minimumNearTop: nat,
    easier: LegRules, harder: LegRules,
    feeNumerator: nat, feeDenominator: nat, reserve: nat)

  // What one leg may do: how many levels it may look at, how far from the top it may go, and
  // whether every candidate must carry the full quantity.
  datatype LegRules = LegRules(maximumLevels: nat, bounded: bool, maximumAggression: nat, requireFull: bool)

  datatype ArbReason =
    | NoReason | NotTradeable | MarketClosed | MissingBids | MissingAsks | NoGrossEdge | InsufficientNet | Discontinuity
    | InsufficientQuantity | AggressionExceeded | ArithmeticOverflow | InvalidObservation | FeesEraseEdge

  datatype Selection = Selection(top: nat, limit: nat, scanned: nat, cumulative: nat, aggressive: bool)
  datatype Candidates = Candidates(selections: seq<Selection>, failure: ArbReason)

  predicate ValidRules(r: LegRules) { 0 < r.maximumLevels <= STRATEGY_DEPTH }

  /** valid_monotonic_arb_config(); the field widths are part of it. */
  predicate ValidConfig(c: ArbConfig) {
    && 0 < c.quantity <= U64_MAX / (DOLLAR - 1) && ValidRules(c.easier) && ValidRules(c.harder)
    && (c.requireNearTop ==> 0 < c.minimumNearTop <= STRATEGY_DEPTH) && (c.requireContinuity ==> c.maximumGap > 0)
    && c.minimumNet + c.cushion <= U64_MAX && 0 < c.feeDenominator && c.feeNumerator <= c.feeDenominator
  }

  // ---------------------------------------------------------------- one side

  function Distance(a: nat, b: nat): nat { if a < b then b - a else a - b }

  predicate GoodLevel(l: Level) { 0 < l.price < DOLLAR && l.quantity > 0 }

  /** A side as the evaluator needs it: a few good levels, strictly away from the top. */
  predicate WellFormed(side: seq<Level>, rising: bool) {
    && 0 < |side| <= STRATEGY_DEPTH && (forall i :: 0 <= i < |side| ==> GoodLevel(side[i]))
    && forall i ::
      0 < i < |side| ==> if rising then side[i - 1].price < side[i].price else side[i - 1].price > side[i].price
  }

  predicate GapOk(c: ArbConfig, side: seq<Level>, i: nat)
    requires i < |side|
  {
    i > 0 && c.requireContinuity ==> Distance(side[i - 1].price, side[i].price) <= c.maximumGap
  }

  predicate ReachOk(r: LegRules, side: seq<Level>, i: nat)
    requires i < |side|
  {
    var aggression := Distance(side[0].price, side[i].price);
    (r.bounded || aggression == 0) && aggression <= r.maximumAggression
  }

  /** None of the first `n` levels a leg may look at is too far from its neighbour or from the top. */
  predicate Clear(c: ArbConfig, r: LegRules, side: seq<Level>, n: nat)
    requires n <= |side|
  {
    forall j: nat :: j < n && j < r.maximumLevels ==> GapOk(c, side, j) && ReachOk(r, side, j)
  }

  predicate Reachable(c: ArbConfig, r: LegRules, side: seq<Level>, i: nat)
    requires i < |side|
  {
    i < r.maximumLevels && Clear(c, r, side, i + 1)
  }

  /** What stopped the scan, if anything did: the first level that is not clear. */
  function Stopped(c: ArbConfig, r: LegRules, side: seq<Level>, n: nat): ArbReason
    requires n <= |side|
  {
    if n == 0 then NoReason
    else if Stopped(c, r, side, n - 1) != NoReason then Stopped(c, r, side, n - 1)
    else if n - 1 >= r.maximumLevels then NoReason
    else if !GapOk(c, side, n - 1) then Discontinuity
    else if !ReachOk(r, side, n - 1) then AggressionExceeded
    else NoReason
  }

  /** The quantity of the first `n` levels. */
  function Depth(side: seq<Level>, n: nat): nat
    requires n <= |side|
  {
    if n == 0 then 0 else Depth(side, n - 1) + side[n - 1].quantity
  }

  function Capped(x: nat, cap: nat): nat { if x < cap then x else cap }

  predicate Offered(c: ArbConfig, r: LegRules, side: seq<Level>, i: nat)
    requires i < |side|
  {
    Reachable(c, r, side, i) && (r.requireFull ==> Depth(side, i + 1) >= c.quantity)
  }

  function SelectionAt(c: ArbConfig, side: seq<Level>, i: nat): Selection
    requires i < |side|
  {
    Selection(side[0].price, side[i].price, i + 1, Capped(Depth(side, i + 1), c.quantity),
              side[i].price != side[0].price)
  }

  /** The candidates among the first `n` levels, in book order. */
  function OfferedUpTo(c: ArbConfig, r: LegRules, side: seq<Level>, n: nat): seq<Selection>
    requires n <= |side|
  {
    if n == 0 then [] else OfferedUpTo(c, r, side, n - 1) + if Offered(c, r, side, n - 1)
    then [SelectionAt(c, side, n - 1)] else []
  }

  /** How many levels in a row, from the top, lie within the near-top window. */
  function NearTop(c: ArbConfig, side: seq<Level>, n: nat): nat
    requires n <= |side|
  {
    if n == 0 then 0
    else if NearTop(c, side, n - 1) == n - 1 && Distance(side[0].price, side[n - 1].price) <= c.nearTopWindow then n
    else NearTop(c, side, n - 1)
  }

  lemma {:induction false} NearTopBound(c: ArbConfig, side: seq<Level>, n: nat)
    requires n <= |side|
    ensures NearTop(c, side, n) <= n
  {
    if n > 0 { NearTopBound(c, side, n - 1); }
  }

  /** Why a side yields no candidate, or `NoReason` when it yields some. */
  function Refusal(c: ArbConfig, r: LegRules, side: seq<Level>, rising: bool): ArbReason {
    if !WellFormed(side, rising) then InvalidObservation
    else if c.requireContinuity && (|side| < 2 || Distance(side[0].price, side[1].price) > c.maximumGap)
    then Discontinuity
    else
      NearTopBound(c, side, |side|);
      var near := NearTop(c, side, |side|);
      if c.requireNearTop && near < c.minimumNearTop then Discontinuity
      else if c.requireNearTop && Depth(side, near) < c.quantity then InsufficientQuantity
      else if OfferedUpTo(c, r, side, |side|) != [] then NoReason
      else if Stopped(c, r, side, |side|) != NoReason then Stopped(c, r, side, |side|)
      else InsufficientQuantity
  }

  /** The candidates of a side are the levels offered, each once: nothing else is, and none is left out. */
  lemma {:induction false} OfferedExactly(c: ArbConfig, r: LegRules, side: seq<Level>, n: nat, s: Selection)
    requires n <= |side|
    ensures s in OfferedUpTo(c, r, side, n) <==> exists i: nat ::
              i < n && Offered(c, r, side, i) && s == SelectionAt(c, side, i)
  {
    if n > 0 { OfferedExactly(c, r, side, n - 1, s); }
  }

  // What the loop over a side accumulates.
  datatype Scan = Scan(selections: seq<Selection>, stop: ArbReason, nearLevels: nat, nearQuantity: nat, quantity: nat)

  /** What a scan of the first `n` levels has found. */
  ghost predicate Scanned(c: ArbConfig, r: LegRules, side: seq<Level>, n: nat, x: Scan)
    requires n <= |side|
  {
    && x.selections == OfferedUpTo(c, r, side, n) && x.stop == Stopped(c, r, side, n)
    && (x.stop == NoReason <==> Clear(c, r, side, n))
    && (x.stop == NoReason ==> x.quantity == Capped(Depth(side, Least(n, r.maximumLevels)), c.quantity))
    && x.nearLevels == NearTop(c, side, n) && x.nearLevels <= n && x.nearQuantity == Depth(side, x.nearLevels)
  }

  /** One level of the scan. */
  function ScanLevel(c: ArbConfig, r: LegRules, side: seq<Level>, i: nat, x: Scan): Scan
    requires i < |side|
  {
    var aggression := Distance(side[0].price, side[i].price);
    var inside := x.nearLevels == i && aggression <= c.nearTopWindow;
    var y := if inside then x.(nearLevels := x.nearLevels + 1, nearQuantity := x.nearQuantity + side[i].quantity)
             else x;
    if i >= r.maximumLevels || y.stop != NoReason then y
    else if i > 0 && c.requireContinuity && Distance(side[i - 1].price, side[i].price) > c.maximumGap
    then y.(stop := Discontinuity)
    else if (!r.bounded && aggression > 0) || aggression > r.maximumAggression then y.(stop := AggressionExceeded)
    else
      var quantity := AddUpTo(y.quantity, side[i].quantity, c.quantity);
      var offered := !r.requireFull || quantity >= c.quantity;
      y.(quantity := quantity,
         selections := y.selections +
                       if offered
                       then [Selection(side[0].price, side[i].price, i + 1, quantity, side[i].price != side[0].price)]
                       else [])
  }

  /** collect_easier_candidates() and collect_harder_candidates(), which mirror each other: exactly
      the levels a leg may use, or the reason there are none. */
  method Collect(c: ArbConfig, r: LegRules, side: seq<Level>, rising: bool) returns (result: Candidates)
    ensures result.failure == Refusal(c, r, side, rising)
    ensures result.selections == if result.failure == NoReason then OfferedUpTo(c, r, side, |side|) else []
  {
    hide OfferedUpTo, Clear, Stopped, ScanLevel;
    if |side| == 0 || |side| > STRATEGY_DEPTH {
      return Candidates([], InvalidObservation);
    }
    var scan := Scan([], NoReason, 0, 0, 0);
    var topGapOk := false;
    ScanStart(c, r, side);
    var i := 0;
    while i < |side|
      invariant i <= |side| && WellFormedUpTo(side, rising, i) && Scanned(c, r, side, i, scan)
      invariant topGapOk <==> i >= 2 && Distance(side[0].price, side[1].price) <= c.maximumGap
    {
      if !GoodLevel(side[i]) {
        return Candidates([], InvalidObservation);
      }
      if i > 0 && if rising then side[i].price <= side[i - 1].price else side[i].price >= side[i - 1].price {
        return Candidates([], InvalidObservation);
      }
      if i == 1 {
        topGapOk := Distance(side[0].price, side[1].price) <= c.maximumGap;
      }
      ScanLevelScans(c, r, side, i, scan);
      scan := ScanLevel(c, r, side, i, scan);
      i := i + 1;
    }
    if c.requireContinuity && !topGapOk {
      return Candidates([], Discontinuity);
    }
    if c.requireNearTop && scan.nearLevels < c.minimumNearTop {
      return Candidates([], Discontinuity);
    }
    if c.requireNearTop && scan.nearQuantity < c.quantity {
      return Candidates([], InsufficientQuantity);
    }
    if scan.selections == [] {
      return Candidates([], if scan.stop != NoReason then scan.stop else InsufficientQuantity);
    }
    return Candidates(scan.selections, NoReason);
  }

  lemma ClearNext(c: ArbConfig, r: LegRules, side: seq<Level>, i: nat)
    requires i < |side|
    ensures Clear(c, r, side, i + 1) <==>
              Clear(c, r, side, i) && (i < r.maximumLevels ==> GapOk(c, side, i) && ReachOk(r, side, i))
  {
  }

  lemma ScanLevelScans(c: ArbConfig, r: LegRules, side: seq<Level>, i: nat, x: Scan)
    requires i < |side| && Scanned(c, r, side, i, x)
    ensures Scanned(c, r, side, i + 1, ScanLevel(c, r, side, i, x))
  {
    hide Clear;
    ClearNext(c, r, side, i);
  }

  lemma ScanStart(c: ArbConfig, r: LegRules, side: seq<Level>)
    ensures Scanned(c, r, side, 0, Scan([], NoReason, 0, 0, 0))
  {
  }

  function Least(a: nat, b: nat): nat { if a < b then a else b }

  /** add_up_to_required(): a sum that saturates at what is required, without overflowing. */
  function AddUpTo(current: nat, additional: nat, required: nat): (r: nat)
    ensures current <= required ==> r == Capped(current + additional, required)
  {
    if current >= required then required
    else if additional >= required - current then required
    else current + additional
  }

  predicate WellFormedUpTo(side: seq<Level>, rising: bool, n: nat)
    requires n <= |side|
  {
    && (forall i :: 0 <= i < n ==> GoodLevel(side[i]))
    && forall i :: 0 < i < n ==> if rising then side[i - 1].price < side[i].price else side[i - 1].price > side[i].price
  }

  // ---------------------------------------------------------------- fees and edge

  /** calculate_fee(): the taker fee at one price, rounded up, with the reserve; `None` on overflow. */
  function Fee(c: ArbConfig, price: nat): Option<nat> {
    if c.quantity == 0 then Some(0)
    else if c.feeDenominator == 0 || price == 0 || price >= DOLLAR then None
    else
      var total := CeilDiv(FeeNumerator(c, price), FeeDenominator(c)) + c.reserve;
      if total > U64_MAX then None else Some(total)
  }

  function Product(a: nat, b: nat): nat { a * b }

  function FeeNumerator(c: ArbConfig, price: nat): nat
    requires price < DOLLAR
  {
    Product(Product(c.feeNumerator, c.quantity), Product(price, DOLLAR - price))
  }

  function FeeDenominator(c: ArbConfig): (d: nat)
    ensures c.feeDenominator > 0 ==> d > 0
  {
    c.feeDenominator * (LOTS * DOLLAR)
  }

  function CeilDiv(n: nat, d: nat): nat
    requires d > 0
  {
    (n + d - 1) / d
  }

  lemma CeilDivBounds(n: nat, d: nat)
    requires d > 0
    ensures (CeilDiv(n, d) - 1) * d < n <= CeilDiv(n, d) * d
  {
    var q, m := (n + d - 1) / d, (n + d - 1) % d;
    assert n + d - 1 == q * d + m;
    assert (q - 1) * d == q * d - d;
  }

  /** The charged fee never falls short of the exact one, and exceeds it by less than a tick beyond the reserve. */
  lemma FeeCovers(c: ArbConfig, price: nat)
    requires ValidConfig(c) && 0 < price < DOLLAR && Fee(c, price).Some?
    ensures FeeNumerator(c, price) <= (Fee(c, price).value - c.reserve) * FeeDenominator(c)
    ensures (Fee(c, price).value - c.reserve - 1) * FeeDenominator(c) < FeeNumerator(c, price)
  {
    CeilDivBounds(FeeNumerator(c, price), FeeDenominator(c));
  }

  lemma Monotone(a: nat, b: nat, c: nat, d: nat)
    requires a <= b && c <= d
    ensures a * c <= b * d
  {
    assert a * c <= b * c;
    assert b * c <= b * d;
  }

  lemma SpreadBound(price: nat)
    requires price < DOLLAR
    ensures Product(price, DOLLAR - price) <= 25_000_000
  {
    assert (price - 5000) * (price - 5000) >= 0;
  }

  lemma CeilDivAtMost(n: nat, d: nat, k: nat)
    requires d > 0 && n <= k * d
    ensures CeilDiv(n, d) <= k
  {
    CeilDivBounds(n, d);
    if CeilDiv(n, d) - 1 >= k { Monotone(k, CeilDiv(n, d) - 1, d, d); }
  }

  /** Under a valid configuration the fee before the reserve is at most 25 ticks a lot, so only the
      reserve can make a fee overflow. */
  lemma FeeBound(c: ArbConfig, price: nat)
    requires ValidConfig(c) && 0 < price < DOLLAR
    ensures CeilDiv(FeeNumerator(c, price), FeeDenominator(c)) <= 25 * c.quantity
    ensures 25 * c.quantity + c.reserve <= U64_MAX ==> Fee(c, price).Some?
  {
    hide CeilDiv;
    var spread := Product(price, DOLLAR - price);
    SpreadBound(price);
    Monotone(c.feeNumerator, c.feeDenominator, c.quantity, c.quantity);
    Monotone(c.feeNumerator * c.quantity, c.feeDenominator * c.quantity, spread, 25_000_000);
    assert c.feeDenominator * c.quantity * 25_000_000 == 25 * c.quantity * FeeDenominator(c);
    CeilDivAtMost(FeeNumerator(c, price), FeeDenominator(c), 25 * c.quantity);
  }

  /** calculate_gross_edge_ticks(). */
  function Gross(c: ArbConfig, easier: nat, harder: nat): nat {
    if harder <= easier then 0 else (harder - easier) * c.quantity / LOTS
  }

  function Required(c: ArbConfig): nat { c.minimumNet + c.cushion }

  // ---------------------------------------------------------------- choosing the pair

  // The candidates of the two legs; pairs are named by their positions.
  datatype Menu = Menu(config: ArbConfig, easier: seq<Selection>, harder: seq<Selection>)
  datatype Choice = NoPair(reason: ArbReason) | Chosen(i: nat, j: nat)

  predicate On(m: Menu, i: nat, j: nat) { i < |m.easier| && j < |m.harder| }

  function GrossAt(m: Menu, i: nat, j: nat): nat
    requires On(m, i, j)
  {
    Gross(m.config, m.easier[i].limit, m.harder[j].limit)
  }

  function EasierFee(m: Menu, i: nat): Option<nat>
    requires i < |m.easier|
  {
    Fee(m.config, m.easier[i].limit)
  }

  function HarderFee(m: Menu, j: nat): Option<nat>
    requires j < |m.harder|
  {
    Fee(m.config, m.harder[j].limit)
  }

  /** The fees of a pair are representable. */
  predicate Priced(m: Menu, i: nat, j: nat)
    requires On(m, i, j)
  {
    && EasierFee(m, i).Some? && HarderFee(m, j).Some?
    && EasierFee(m, i).value + HarderFee(m, j).value <= U64_MAX
  }

  function FeesAt(m: Menu, i: nat, j: nat): nat
    requires On(m, i, j)
  {
    if Priced(m, i, j) then EasierFee(m, i).value + HarderFee(m, j).value else 0
  }

  predicate Survives(m: Menu, i: nat, j: nat)
    requires On(m, i, j)
  {
    Priced(m, i, j) && GrossAt(m, i, j) > FeesAt(m, i, j)
  }

  function NetAt(m: Menu, i: nat, j: nat): nat
    requires On(m, i, j)
  {
    if Survives(m, i, j) then GrossAt(m, i, j) - FeesAt(m, i, j) else 0
  }

  predicate Clears(m: Menu, i: nat, j: nat)
    requires On(m, i, j)
  {
    Survives(m, i, j) && NetAt(m, i, j) >= Required(m.config)
  }

  function Score(m: Menu, i: nat, j: nat): nat
    requires On(m, i, j)
  {
    m.easier[i].scanned + m.harder[j].scanned
  }

  predicate Before(a: nat, b: nat, i: nat, j: nat) { a < i || (a == i && b < j) }

  /** Deeper first, then the larger net edge, then the earlier pair. */
  predicate Beats(m: Menu, i: nat, j: nat, a: nat, b: nat)
    requires On(m, i, j) && On(m, a, b)
  {
    || Score(m, i, j) > Score(m, a, b)
    || (Score(m, i, j) == Score(m, a, b)
        && (NetAt(m, i, j) > NetAt(m, a, b) || (NetAt(m, i, j) == NetAt(m, a, b) && !Before(a, b, i, j))))
  }

  /** Some fee that the search looks at does not fit: of an easier candidate, or of a pair with an edge. */
  ghost predicate Overflows(m: Menu) {
    || (exists i: nat :: i < |m.easier| && EasierFee(m, i).None?)
    || exists i: nat, j: nat :: On(m, i, j) && GrossAt(m, i, j) > 0 && !Priced(m, i, j)
  }

  ghost predicate SomeGross(m: Menu, i: nat, j: nat) {
    exists a: nat, b: nat :: On(m, a, b) && Before(a, b, i, j) && GrossAt(m, a, b) > 0
  }

  ghost predicate SomeSurvivor(m: Menu, i: nat, j: nat) {
    exists a: nat, b: nat :: On(m, a, b) && Before(a, b, i, j) && Survives(m, a, b)
  }

  ghost predicate SomeClears(m: Menu, i: nat, j: nat) {
    exists a: nat, b: nat :: On(m, a, b) && Before(a, b, i, j) && Clears(m, a, b)
  }

  ghost predicate Best(m: Menu, i: nat, j: nat, x: nat, y: nat) {
    && On(m, x, y) && Before(x, y, i, j) && Clears(m, x, y)
    && forall a: nat, b: nat :: On(m, a, b) && Before(a, b, i, j) && Clears(m, a, b) ==> Beats(m, x, y, a, b)
  }

  /** No pair can be chosen, and this is why. */
  ghost predicate Unpaired(m: Menu, reason: ArbReason) {
    if Overflows(m) then reason == ArithmeticOverflow
    else
      && !SomeClears(m, |m.easier|, 0)
      && reason ==
         if !SomeGross(m, |m.easier|, 0) then NoGrossEdge
         else if !SomeSurvivor(m, |m.easier|, 0) then FeesEraseEdge
         else InsufficientNet
  }

  // What the search over the pairs before (i, j) has found.
  datatype Search = Search(found: bool, x: nat, y: nat, sawGross: bool, sawSurvivor: bool)

  ghost predicate Searched(m: Menu, i: nat, j: nat, s: Search) {
    && (s.sawGross <==> SomeGross(m, i, j)) && (s.sawSurvivor <==> SomeSurvivor(m, i, j))
    && (if s.found then Best(m, i, j, s.x, s.y) else !SomeClears(m, i, j))
  }

  /** One pair of the search, whose fees fit. */
  function Consider(m: Menu, i: nat, j: nat, s: Search): Search
    requires On(m, i, j) && (s.found ==> On(m, s.x, s.y))
  {
    if GrossAt(m, i, j) == 0 then s
    else if GrossAt(m, i, j) <= FeesAt(m, i, j) then s.(sawGross := true)
    else
      var t := s.(sawGross := true, sawSurvivor := true);
      if NetAt(m, i, j) < Required(m.config) then t
      else if !s.found || Score(m, i, j) > Score(m, s.x, s.y)
              || (Score(m, i, j) == Score(m, s.x, s.y) && NetAt(m, i, j) > NetAt(m, s.x, s.y)) then
        t.(found := true, x := i, y := j)
      else t
  }

  lemma BestNext(m: Menu, i: nat, j: nat, x: nat, y: nat)
    requires On(m, i, j) && Best(m, i, j, x, y)
    ensures !Clears(m, i, j) || Beats(m, x, y, i, j) ==> Best(m, i, j + 1, x, y)
    ensures Clears(m, i, j) && !Beats(m, x, y, i, j) ==> Best(m, i, j + 1, i, j)
  {
    hide Clears, Score, NetAt;
  }

  lemma SomeNext(m: Menu, i: nat, j: nat)
    requires On(m, i, j)
    ensures SomeGross(m, i, j + 1) <==> SomeGross(m, i, j) || GrossAt(m, i, j) > 0
    ensures SomeSurvivor(m, i, j + 1) <==> SomeSurvivor(m, i, j) || Survives(m, i, j)
    ensures SomeClears(m, i, j + 1) <==> SomeClears(m, i, j) || Clears(m, i, j)
  {
    hide GrossAt, Survives, Clears;
    assert Before(i, j, i, j + 1);
  }

  lemma ConsiderSearches(m: Menu, i: nat, j: nat, s: Search)
    requires On(m, i, j) && Searched(m, i, j, s) && (GrossAt(m, i, j) > 0 ==> Priced(m, i, j))
    ensures Searched(m, i, j + 1, Consider(m, i, j, s))
  {
    hide SomeGross, SomeSurvivor, SomeClears, GrossAt, Score, Priced;
    SomeNext(m, i, j);
    if s.found {
      BestNext(m, i, j, s.x, s.y);
    } else if Clears(m, i, j) {
      FirstBest(m, i, j);
    }
  }

  lemma FirstBest(m: Menu, i: nat, j: nat)
    requires On(m, i, j) && Clears(m, i, j) && !SomeClears(m, i, j)
    ensures Best(m, i, j + 1, i, j)
  {
    hide Clears, Score, NetAt;
  }

  lemma NextRow(m: Menu, i: nat, s: Search)
    requires Searched(m, i, |m.harder|, s)
    ensures Searched(m, i + 1, 0, s)
  {
    hide GrossAt, Survives, Clears, Score, NetAt;
    assert forall a: nat, b: nat :: On(m, a, b) ==> (Before(a, b, i, |m.harder|) <==> Before(a, b, i + 1, 0));
  }

  /** select_paired_limits(): the best clearing pair, or exactly why there is none. */
  method SelectPair(m: Menu) returns (choice: Choice)
    ensures match choice
            case Chosen(x, y) => !Overflows(m) && Best(m, |m.easier|, 0, x, y)
            case NoPair(reason) => Unpaired(m, reason)
  {
    hide Best, SomeGross, SomeSurvivor, SomeClears, Fee, Gross;
    var s := Search(false, 0, 0, false, false);
    SearchStart(m);
    var i := 0;
    while i < |m.easier|
      invariant i <= |m.easier| && Searched(m, i, 0, s)
      invariant forall a: nat :: a < i ==> EasierFee(m, a).Some?
      invariant forall a: nat, b: nat :: On(m, a, b) && Before(a, b, i, 0) && GrossAt(m, a, b) > 0 ==> Priced(m, a, b)
    {
      var easierFee := EasierFee(m, i);
      if easierFee.None? {
        return NoPair(ArithmeticOverflow);
      }
      var j := 0;
      while j < |m.harder|
        invariant j <= |m.harder| && Searched(m, i, j, s)
        invariant forall a: nat, b: nat :: On(m, a, b) && Before(a, b, i, j) && GrossAt(m, a, b) > 0 ==> Priced(m, a, b)
      {
        if GrossAt(m, i, j) > 0 && !Priced(m, i, j) {
          return NoPair(ArithmeticOverflow);
        }
        ConsiderSearches(m, i, j, s);
        BestIsOn(m, i, j, s);
        s := Consider(m, i, j, s);
        j := j + 1;
      }
      NextRow(m, i, s);
      i := i + 1;
    }
    if s.found {
      return Chosen(s.x, s.y);
    }
    return NoPair(if !s.sawGross then NoGrossEdge else if !s.sawSurvivor then FeesEraseEdge else InsufficientNet);
  }

  lemma SearchStart(m: Menu)
    ensures Searched(m, 0, 0, Search(false, 0, 0, false, false))
  {
  }

  lemma BestIsOn(m: Menu, i: nat, j: nat, s: Search)
    requires Searched(m, i, j, s)
    ensures s.found ==> On(m, s.x, s.y)
  {
  }

  // ---------------------------------------------------------------- one observation

  // Where and when the observation was made.
  datatype Stamps = Stamps(universe: nat, shard: nat, ingress: nat, bookApply: nat, published: nat)
  datatype PairInput = PairInput(observation: Observation, easierClose: nat, harderClose: nat, stamps: Stamps)

  datatype ArbLeg = ArbLeg(market: nat, buysYes: bool, limit: nat, quantity: nat)
  datatype ArbCandidate = ArbCandidate(
    event: nat, revision: nat, easier: ArbLeg, harder: ArbLeg, gross: nat, fees: nat, net: nat, stamps: Stamps)
  datatype Evaluation = Refused(reason: ArbReason) | Accepted(candidate: ArbCandidate)

  /** valid_pair_header(). */
  predicate ValidHeader(o: Observation) {
    && o.event != 0 && o.easier.market != 0 && o.harder.market != 0 && o.easier.market != o.harder.market
    && o.easier.strike < o.harder.strike && o.harder.index == o.easier.index + 1
    && |o.easier.asks| <= STRATEGY_DEPTH && |o.harder.bids| <= STRATEGY_DEPTH
  }

  predicate ClosedAt(close: nat, now: nat) { close != 0 && now >= close }

  /** Why an observation is not searched, or `NoReason`. */
  function Screen(c: ArbConfig, p: PairInput, now: nat): ArbReason {
    var o := p.observation;
    if !ValidHeader(o) then InvalidObservation
    else if !o.easier.tradeable || !o.harder.tradeable then NotTradeable
    else if ClosedAt(p.easierClose, now) || ClosedAt(p.harderClose, now) then MarketClosed
    else if o.easier.asks == [] then MissingAsks
    else if o.harder.bids == [] then MissingBids
    else if Refusal(c, c.easier, o.easier.asks, true) != NoReason then Refusal(c, c.easier, o.easier.asks, true)
    else Refusal(c, c.harder, o.harder.bids, false)
  }

  /** Everything the two legs may do on an observation. */
  function MenuOf(c: ArbConfig, o: Observation): Menu {
    Menu(c, OfferedUpTo(c, c.easier, o.easier.asks, |o.easier.asks|),
         OfferedUpTo(c, c.harder, o.harder.bids, |o.harder.bids|))
  }

  function CandidateAt(p: PairInput, m: Menu, x: nat, y: nat): ArbCandidate
    requires On(m, x, y)
  {
    var o := p.observation;
    ArbCandidate(o.event, o.revision,
                 ArbLeg(o.easier.market, true, m.easier[x].limit, m.config.quantity),
                 ArbLeg(o.harder.market, false, m.harder[y].limit, m.config.quantity),
                 GrossAt(m, x, y), FeesAt(m, x, y), NetAt(m, x, y), p.stamps)
  }

  ghost predicate ChosenBest(p: PairInput, m: Menu, x: nat, y: nat, candidate: ArbCandidate) {
    Best(m, |m.easier|, 0, x, y) && candidate == CandidateAt(p, m, x, y)
  }

  /** Accepted exactly when an observation passes the screen and some pair of offered limits clears
      the required net edge, and then with the best such pair; otherwise refused for the exact reason. */
  ghost predicate Evaluates(c: ArbConfig, p: PairInput, now: nat, e: Evaluation) {
    var m := MenuOf(c, p.observation);
    && (e.Accepted? <==> Screen(c, p, now) == NoReason && !Overflows(m) && SomeClears(m, |m.easier|, 0))
    && match e
       case Accepted(candidate) => exists x: nat, y: nat :: ChosenBest(p, m, x, y, candidate)
       case Refused(reason) =>
         if Screen(c, p, now) != NoReason then reason == Screen(c, p, now) else Unpaired(m, reason)
  }

  /** evaluate_monotonic_arb(). */
  method Evaluate(c: ArbConfig, p: PairInput, now: nat) returns (e: Evaluation)
    requires ValidConfig(c)
    ensures Evaluates(c, p, now, e)
  {
    var o := p.observation;
    if !ValidHeader(o) {
      return Refused(InvalidObservation);
    }
    if !o.easier.tradeable || !o.harder.tradeable {
      return Refused(NotTradeable);
    }
    if ClosedAt(p.easierClose, now) || ClosedAt(p.harderClose, now) {
      return Refused(MarketClosed);
    }
    if o.easier.asks == [] {
      return Refused(MissingAsks);
    }
    if o.harder.bids == [] {
      return Refused(MissingBids);
    }
    var easier := Collect(c, c.easier, o.easier.asks, true);
    if easier.selections == [] {
      RefusalIsEmpty(c, c.easier, o.easier.asks, true);
      return Refused(easier.failure);
    }
    var harder := Collect(c, c.harder, o.harder.bids, false);
    if harder.selections == [] {
      RefusalIsEmpty(c, c.harder, o.harder.bids, false);
      return Refused(harder.failure);
    }
    var m := Menu(c, easier.selections, harder.selections);
    assert m == MenuOf(c, o);
    var choice := SelectPair(m);
    if choice.NoPair? {
      return Refused(choice.reason);
    }
    e := Accepted(CandidateAt(p, m, choice.i, choice.j));
    assert ChosenBest(p, m, choice.i, choice.j, e.candidate);
  }

  lemma RefusalIsEmpty(c: ArbConfig, r: LegRules, side: seq<Level>, rising: bool)
    ensures Refusal(c, r, side, rising) == NoReason ==> OfferedUpTo(c, r, side, |side|) != []
  {
  }

  // ---------------------------------------------------------------- what an accepted pair is worth

  function Settles(yes: bool): nat { if yes then DOLLAR else 0 }

  /** What buying YES on the easier market and selling YES on the harder one at the limits pays at
      settlement, in hundredths of a tick, before fees. */
  function Payoff(a: ArbCandidate, easierYes: bool, harderYes: bool): int {
    (Settles(easierYes) - a.easier.limit) * a.easier.quantity
    + (a.harder.limit - Settles(harderYes)) * a.harder.quantity
  }

  lemma PayoffBound(e: int, h: int, easierPays: int, harderPays: int, q: nat)
    requires easierPays >= harderPays
    ensures (easierPays - e) * q + (h - harderPays) * q >= (h - e) * q
  {
    assert (easierPays - e) * q + (h - harderPays) * q == (h - e) * q + (easierPays - harderPays) * q;
  }

  /** In every settlement where the harder YES implies the easier one, an accepted pair pays at least
      its net edge after the charged fees, and that is at least what the configuration requires. */
  lemma AcceptedPays(c: ArbConfig, p: PairInput, now: nat, e: Evaluation, easierYes: bool, harderYes: bool)
    requires Evaluates(c, p, now, e) && e.Accepted? && (harderYes ==> easierYes)
    ensures Payoff(e.candidate, easierYes, harderYes) - LOTS * e.candidate.fees >= LOTS * e.candidate.net
    ensures e.candidate.net >= Required(c) && e.candidate.net > 0
  {
    hide OfferedUpTo, Fee, Overflows, SomeClears, Unpaired, Screen;
    var m := MenuOf(c, p.observation);
    var x: nat, y: nat :| ChosenBest(p, m, x, y, e.candidate);
    var easier, harder, q := m.easier[x].limit, m.harder[y].limit, c.quantity;
    PayoffBound(easier, harder, Settles(easierYes), Settles(harderYes), q);
    assert LOTS * Gross(c, easier, harder) <= (harder - easier) * q;
  }

  /** An accepted candidate is for its own observation, with limits strictly inside the dollar. */
  lemma CandidateFacts(c: ArbConfig, p: PairInput, now: nat, e: Evaluation)
    requires Evaluates(c, p, now, e) && e.Accepted?
    ensures var a, o := e.candidate, p.observation;
            && ValidHeader(o) && a.event == o.event && a.revision == o.revision && a.stamps == p.stamps
            && a.easier.market == o.easier.market && a.harder.market == o.harder.market
            && a.easier.buysYes && !a.harder.buysYes && a.easier.quantity == a.harder.quantity == c.quantity
            && 0 < a.easier.limit < DOLLAR && 0 < a.harder.limit < DOLLAR
            && a.gross > a.fees && a.net == a.gross - a.fees
  {
    hide Offered, OfferedUpTo, Overflows, SomeClears, Unpaired, NearTop, Depth, Stopped, Fee, Gross;
    var o := p.observation;
    var m := MenuOf(c, o);
    var x: nat, y: nat :| ChosenBest(p, m, x, y, e.candidate);
    OfferedPrice(c, c.easier, o.easier.asks, true, m.easier[x]);
    OfferedPrice(c, c.harder, o.harder.bids, false, m.harder[y]);
  }

  lemma OfferedPrice(c: ArbConfig, r: LegRules, side: seq<Level>, rising: bool, s: Selection)
    requires WellFormed(side, rising) && s in OfferedUpTo(c, r, side, |side|)
    ensures 0 < s.limit < DOLLAR
  {
    hide Offered, OfferedUpTo, Depth;
    OfferedExactly(c, r, side, |side|, s);
    var i: nat :| i < |side| && Offered(c, r, side, i) && s == SelectionAt(c, side, i);
    assert GoodLevel(side[i]);
  }

  // ---------------------------------------------------------------- what the shards publish

  /** A side projected from a book is a side the evaluator can use, unless it shows a level at a price
      of nothing or of a whole dollar, which the price grid has and the evaluator refuses. */
  lemma ProjectedSides(b: KalshiBook)
    requires Gridded(b)
    ensures var asks := TopAsks(b, 0, STRATEGY_DEPTH);
            WellFormed(asks, true) <==> asks != [] && forall k :: 0 <= k < |asks| ==> 0 < asks[k].price < DOLLAR
    ensures var bids := TopBids(b, |b.bids|, STRATEGY_DEPTH);
            WellFormed(bids, false) <==> bids != [] && forall k :: 0 <= k < |bids| ==> 0 < bids[k].price < DOLLAR
  {
    hide TopAsks, TopBids, Gridded, QuantityAt;
    AsksAreBest(b, STRATEGY_DEPTH);
    BidsAreBest(b, STRATEGY_DEPTH);
  }

  /** A snapshot the shard accepts whose side the evaluator refuses: an ask at a price of nothing. */
  lemma FreeAskIsRefused()
    ensures var b := ApplySnapshot(Blank(LinearCents), [], [Level(0, 5)]).0;
            var asks := TopAsks(b, 0, STRATEGY_DEPTH);
            Usable(b) && Gridded(b) && asks != [] && !WellFormed(asks, true)
  {
    var (blank, asks) := (Blank(LinearCents), [Level(0, 5)]);
    GridRoundTrip(blank, 0, 0);
    InstallFacts(blank, blank.bids, []);
    InstallFacts(blank, blank.asks, asks);
    hide IndexByTick, TickByIndex, WellFormed;
    var b := ApplySnapshot(blank, [], asks).0;
    assert b.asks[0] == 5;
    assert TopAsks(b, 0, STRATEGY_DEPTH)[0].price == 0;
    ProjectedSides(b);
  }

  /** A published observation has a valid header exactly when its ids are set and its markets differ. */
  lemma PublishedHeader(ev: EventState, i: nat)
    requires PairObservation(ev, i).Some? && Gridded(ev.markets[i].book) && Gridded(ev.markets[i + 1].book)
    ensures ValidHeader(PairObservation(ev, i).value) <==>
            ev.id != 0 && ev.markets[i].id != 0 && ev.markets[i + 1].id != 0 && ev.markets[i].id != ev.markets[i + 1].id
  {
    hide TopAsks, TopBids, Gridded, QuantityAt;
    AsksAreBest(ev.markets[i].book, STRATEGY_DEPTH);
    BidsAreBest(ev.markets[i + 1].book, STRATEGY_DEPTH);
  }
}
