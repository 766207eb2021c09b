/** Capital and totals: every operation on portfolios and positions keeps reserved capital within
    the allocation limit, available capital fresh with respect to its own portfolio, and the
    totals of each strategy equal to the sums over its positions. */
module OmsMoney {
  import opened Bits
  import opened Sums
  import opened OmsTypes
  import opened Oms

  function ExposureIn(k: nat): Position -> int { (p: Position) => if p.strategy == k then p.exposure else 0 }
  function RealizedIn(k: nat): Position -> int { (p: Position) => if p.strategy == k then p.realized else 0 }
  function FeesIn(k: nat): Position -> int { (p: Position) => if p.strategy == k then p.fees else 0 }

  /** The three totals of a portfolio are the sums over its positions. */
  ghost predicate TotalsAre(positions: map<(nat, nat), Position>, k: nat, p: Portfolio) {
    && p.inventory == Sum(positions, ExposureIn(k))
    && p.realized == Sum(positions, RealizedIn(k))
    && p.fees == Sum(positions, FeesIn(k))
  }

  predicate PortfolioBounded(cfg: RiskConfig, p: Portfolio) {
    p.limit == cfg.limit && 0 <= p.reserved <= Max(0, cfg.limit)
  }

  predicate PositionsOwned(m: Money) {
    forall key :: key in m.positions ==>
      m.positions[key].strategy == key.0 && m.positions[key].market == key.1 && key.0 in m.portfolios
  }

  ghost predicate PortfolioSound(m: Money, cfg: RiskConfig, k: nat)
    requires k in m.portfolios
  {
    PortfolioBounded(cfg, m.portfolios[k]) && TotalsAre(m.positions, k, m.portfolios[k])
  }

  /** Everything but available capital. */
  ghost predicate Sound(m: Money, cfg: RiskConfig) {
    PositionsOwned(m) && forall k :: k in m.portfolios ==> PortfolioSound(m, cfg, k)
  }

  /** Available capital is never stale with respect to its own portfolio. */
  predicate OwnFresh(cfg: RiskConfig, reconciled: bool, p: Portfolio) {
    && 0 <= p.available <= StrategyAvailable(p)
    && (!cfg.required ==> p.available == StrategyAvailable(p))
    && (cfg.required && !reconciled ==> p.available == 0)
  }

  /** With a single portfolio it is exact. */
  ghost predicate AloneExact(m: Money, cfg: RiskConfig) {
    |m.portfolios| == 1 ==> forall k :: k in m.portfolios ==> m.portfolios[k] == Recomputed(m, cfg, m.portfolios[k])
  }

  ghost predicate Fresh(m: Money, cfg: RiskConfig) {
    && (forall k :: k in m.portfolios ==> OwnFresh(cfg, m.reconciled, m.portfolios[k]))
    && AloneExact(m, cfg)
  }

  ghost predicate MoneyInv(m: Money, cfg: RiskConfig) { Sound(m, cfg) && Fresh(m, cfg) }

  predicate ValidRisk(cfg: RiskConfig) { I64_MIN <= cfg.limit <= I64_MAX }

  // ------------------------------------------------------------ recomputation

  lemma RecomputedFresh(m: Money, cfg: RiskConfig, p: Portfolio)
    ensures OwnFresh(cfg, m.reconciled, Recomputed(m, cfg, p))
    ensures Recomputed(m, cfg, p).reserved == p.reserved && Recomputed(m, cfg, p).limit == p.limit
  {
    hide GlobalReserved;
  }

  /** Refreshing available capital does not move the total the venue constraint uses. */
  lemma RecomputeAllInv(m: Money, cfg: RiskConfig)
    requires Sound(m, cfg)
    ensures MoneyInv(RecomputeAll(m, cfg), cfg)
  {
    hide Recomputed, TotalsAre;
    var m' := RecomputeAll(m, cfg);
    forall k | k in m.portfolios ensures
      && OwnFresh(cfg, m'.reconciled, m'.portfolios[k]) && m'.portfolios[k].reserved == m.portfolios[k].reserved
      && PortfolioSound(m', cfg, k)
    {
      RecomputedFresh(m, cfg, m.portfolios[k]);
      RecomputedTotals(m, cfg, k);
    }
    assert AloneExact(m', cfg) by {
      SameGlobal(m.portfolios, m'.portfolios);
      forall k | k in m.portfolios ensures m'.portfolios[k] == Recomputed(m', cfg, m'.portfolios[k]) {
        RecomputedTwice(m, m', cfg, m.portfolios[k]);
      }
    }
  }

  lemma RecomputedTotals(m: Money, cfg: RiskConfig, k: nat)
    requires k in m.portfolios && PortfolioSound(m, cfg, k)
    ensures PortfolioBounded(cfg, Recomputed(m, cfg, m.portfolios[k]))
    ensures TotalsAre(m.positions, k, Recomputed(m, cfg, m.portfolios[k]))
  {
    hide GlobalReserved, Available;
  }

  lemma SameGlobal(a: map<nat, Portfolio>, b: map<nat, Portfolio>)
    requires a.Keys == b.Keys && forall k :: k in a ==> a[k].reserved == b[k].reserved
    ensures GlobalReserved(a) == GlobalReserved(b)
  {
    SumSame(a, b, PositiveReserved, PositiveReserved);
  }

  lemma RecomputedTwice(m: Money, m': Money, cfg: RiskConfig, p: Portfolio)
    requires GlobalReserved(m.portfolios) == GlobalReserved(m'.portfolios)
    requires m.reconciled == m'.reconciled && m.balance == m'.balance
    ensures Recomputed(m', cfg, Recomputed(m, cfg, p)) == Recomputed(m, cfg, p)
  {
    hide GlobalReserved, VenueAfterSafety;
  }

  /** Storing one portfolio with its own refresh keeps every other portfolio fresh. */
  lemma StoreOneInv(m: Money, cfg: RiskConfig, k: nat, p: Portfolio)
    requires MoneyInv(m, cfg) && PortfolioBounded(cfg, p) && TotalsAre(m.positions, k, p)
    ensures MoneyInv(StoreOne(m, cfg, k, p), cfg)
  {
    hide Recomputed, TotalsAre, GlobalReserved;
    var m1 := m.(portfolios := m.portfolios[k := p]);
    var m' := StoreOne(m, cfg, k, p);
    RecomputedFresh(m1, cfg, p);
    assert PortfolioSound(m', cfg, k) by {
      RecomputedTotals(m1, cfg, k);
    }
    forall j | j in m'.portfolios ensures PortfolioSound(m', cfg, j) {
      if j != k { assert PortfolioSound(m, cfg, j); }
    }
    assert AloneExact(m', cfg) by {
      if |m'.portfolios| == 1 {
        OnlyKey(m'.portfolios, k);
        SameGlobal(m1.portfolios, m'.portfolios);
        RecomputedTwice(m1, m', cfg, p);
      }
    }
  }

  lemma OnlyKey(m: map<nat, Portfolio>, k: nat)
    requires |m| == 1 && k in m
    ensures forall j :: j in m ==> j == k
  {
    assert |m.Keys - {k}| == 0;
    assert m.Keys == (m.Keys - {k}) + {k};
  }

  lemma NoPositionsNoTotals(m: Money, cfg: RiskConfig, k: nat)
    requires PositionsOwned(m) && k !in m.portfolios
    ensures TotalsAre(m.positions, k, PortfolioOf(m, cfg, k))
  {
    SumZero(m.positions, ExposureIn(k));
    SumZero(m.positions, RealizedIn(k));
    SumZero(m.positions, FeesIn(k));
  }

  lemma EnsureShape(m: Money, cfg: RiskConfig, k: nat)
    ensures var m' := EnsurePortfolio(m, cfg, k);
            && k in m'.portfolios && PortfolioOf(m', cfg, k) == m'.portfolios[k]
            && m'.positions == m.positions && m'.reconciled == m.reconciled && m'.balance == m.balance
            && m'.portfolios[k] == PortfolioOf(m, cfg, k).(available := m'.portfolios[k].available)
            && m'.portfolios.Keys == m.portfolios.Keys + {k}
            && forall j :: j in m.portfolios ==> m'.portfolios[j] == m.portfolios[j]
  {
    hide GlobalReserved, Available;
  }

  lemma EnsureInv(m: Money, cfg: RiskConfig, k: nat)
    requires MoneyInv(m, cfg)
    ensures MoneyInv(EnsurePortfolio(m, cfg, k), cfg)
  {
    if k !in m.portfolios {
      NoPositionsNoTotals(m, cfg, k);
      hide MoneyInv, TotalsAre, StoreOne;
      StoreOneInv(m, cfg, k, PortfolioOf(m, cfg, k));
    }
  }

  /** Replacing a portfolio by one that agrees on everything available capital depends on. */
  lemma StoreSame(m: Money, cfg: RiskConfig, k: nat, p: Portfolio)
    requires MoneyInv(m, cfg) && k in m.portfolios
    requires p == m.portfolios[k].(openOrders := p.openOrders, activeGroups := p.activeGroups)
    ensures MoneyInv(Store(m, k, p), cfg)
  {
    hide TotalsAre, Recomputed, OwnFresh, PortfolioBounded;
    var m' := Store(m, k, p);
    assert m'.portfolios.Keys == m.portfolios.Keys;
    assert PortfolioSound(m, cfg, k);
    SameTotals(m.positions, k, m.portfolios[k], p);
    SameStanding(cfg, m.reconciled, m.portfolios[k], p);
    assert AloneExact(m', cfg) by { SameAlone(m, cfg, k, p); }
    forall j | j in m'.portfolios ensures PortfolioSound(m', cfg, j) {
      assert PortfolioSound(m, cfg, j);
    }
  }

  lemma SameStanding(cfg: RiskConfig, reconciled: bool, p: Portfolio, p': Portfolio)
    requires p' == p.(openOrders := p'.openOrders, activeGroups := p'.activeGroups)
    ensures OwnFresh(cfg, reconciled, p) ==> OwnFresh(cfg, reconciled, p')
    ensures PortfolioBounded(cfg, p) ==> PortfolioBounded(cfg, p')
  {
  }

  lemma SameAlone(m: Money, cfg: RiskConfig, k: nat, p: Portfolio)
    requires AloneExact(m, cfg) && k in m.portfolios
    requires p == m.portfolios[k].(openOrders := p.openOrders, activeGroups := p.activeGroups)
    ensures AloneExact(Store(m, k, p), cfg)
  {
    hide GlobalReserved, VenueAfterSafety;
    var m' := Store(m, k, p);
    assert m'.portfolios.Keys == m.portfolios.Keys;
    SameGlobal(m.portfolios, m'.portfolios);
  }

  lemma SameTotals(positions: map<(nat, nat), Position>, k: nat, p: Portfolio, p': Portfolio)
    requires TotalsAre(positions, k, p) && p'.inventory == p.inventory && p'.realized == p.realized && p'.fees == p.fees
    ensures TotalsAre(positions, k, p')
  {
  }

  lemma OpenOrdersInv(m: Money, cfg: RiskConfig, k: nat, n: nat)
    requires MoneyInv(m, cfg)
    ensures MoneyInv(OpenOrders(m, cfg, k, n), cfg)
  {
    hide MoneyInv, EnsurePortfolio;
    EnsureInv(m, cfg, k);
    EnsureShape(m, cfg, k);
    var m1 := EnsurePortfolio(m, cfg, k);
    var p := PortfolioOf(m1, cfg, k);
    StoreSame(m1, cfg, k, p.(openOrders := p.openOrders + n));
  }

  // -------------------------------------------------------------- reservation

  /** Capital that is available fits under the limit next to what is committed already. */
  lemma AvailableFits(cfg: RiskConfig, reconciled: bool, p: Portfolio, amount: nat)
    requires ValidRisk(cfg) && PortfolioBounded(cfg, p) && OwnFresh(cfg, reconciled, p)
    requires 0 < amount <= p.available
    ensures p.reserved + amount + Max(0, p.inventory) <= cfg.limit
    ensures PortfolioBounded(cfg, p.(reserved := p.reserved + amount))
  {
  }

  /** reserve_group_capital(): what it grants fits under the allocation limit. */
  lemma ReserveInv(m: Money, cfg: RiskConfig, k: nat, amount: nat)
    requires ValidRisk(cfg) && MoneyInv(m, cfg)
    ensures MoneyInv(Reserve(m, cfg, k, amount).0, cfg)
  {
    hide MoneyInv, EnsurePortfolio, StoreOne, PortfolioBounded, TotalsAre;
    EnsureInv(m, cfg, k);
    EnsureShape(m, cfg, k);
    var m1 := EnsurePortfolio(m, cfg, k);
    var p := m1.portfolios[k];
    if 0 < amount <= I64_MAX && p.available >= amount {
      var p' := p.(reserved := p.reserved + amount, activeGroups := p.activeGroups + 1);
      MoreReserved(m1, cfg, k, amount, p');
      StoreOneInv(m1, cfg, k, p');
    }
  }

  lemma MoreReserved(m: Money, cfg: RiskConfig, k: nat, amount: nat, p': Portfolio)
    requires ValidRisk(cfg) && MoneyInv(m, cfg) && k in m.portfolios && 0 < amount <= m.portfolios[k].available
    requires p' == m.portfolios[k].(reserved := m.portfolios[k].reserved + amount, activeGroups := p'.activeGroups)
    ensures PortfolioBounded(cfg, p') && TotalsAre(m.positions, k, p')
  {
    hide MoneyInv, TotalsAre;
    Standing(m, cfg, k);
    AvailableFits(cfg, m.reconciled, m.portfolios[k], amount);
    SameTotals(m.positions, k, m.portfolios[k], p');
  }

  /** Every granted reservation leaves reserved capital plus inventory within the limit. */
  lemma ReserveFits(m: Money, cfg: RiskConfig, k: nat, amount: nat)
    requires ValidRisk(cfg) && MoneyInv(m, cfg) && Reserve(m, cfg, k, amount).1
    ensures var m' := Reserve(m, cfg, k, amount).0;
            && k in m'.portfolios && m'.portfolios[k].reserved + Max(0, m'.portfolios[k].inventory) <= cfg.limit
            && m'.portfolios[k].reserved == PortfolioOf(m, cfg, k).reserved + amount
  {
    hide MoneyInv, EnsurePortfolio, GlobalReserved;
    EnsureInv(m, cfg, k);
    EnsureShape(m, cfg, k);
    var m1 := EnsurePortfolio(m, cfg, k);
    assert OwnFresh(cfg, m1.reconciled, m1.portfolios[k]) && PortfolioBounded(cfg, m1.portfolios[k]) by {
      Standing(m1, cfg, k);
    }
    AvailableFits(cfg, m1.reconciled, m1.portfolios[k], amount);
  }

  lemma Standing(m: Money, cfg: RiskConfig, k: nat)
    requires MoneyInv(m, cfg) && k in m.portfolios
    ensures OwnFresh(cfg, m.reconciled, m.portfolios[k]) && PortfolioBounded(cfg, m.portfolios[k])
    ensures TotalsAre(m.positions, k, m.portfolios[k])
  {
    assert PortfolioSound(m, cfg, k);
  }

  /** release_group_capital() never takes more than the portfolio holds. */
  lemma ReleaseMoneyInv(m: Money, cfg: RiskConfig, grp: Group)
    requires MoneyInv(m, cfg)
    ensures MoneyInv(ReleaseMoney(m, cfg, grp), cfg)
  {
    hide MoneyInv, EnsurePortfolio, TotalsAre, OwnFresh, StoreOne;
    var k := grp.context.strategy;
    EnsureInv(m, cfg, k);
    EnsureShape(m, cfg, k);
    var m1 := EnsurePortfolio(m, cfg, k);
    var p := PortfolioOf(m1, cfg, k);
    var p' := p.(reserved := p.reserved - Releasable(m, cfg, grp),
                 activeGroups := if p.activeGroups > 0 then p.activeGroups - 1 else 0);
    Standing(m1, cfg, k);
    SameTotals(m1.positions, k, p, p');
    StoreOneInv(m1, cfg, k, p');
  }

  /** Storing a portfolio and refreshing all of them. */
  lemma StoreAllInv(m: Money, cfg: RiskConfig, k: nat, p: Portfolio)
    requires Sound(m, cfg) && PortfolioBounded(cfg, p) && TotalsAre(m.positions, k, p)
    ensures MoneyInv(RecomputeAll(Store(m, k, p), cfg), cfg)
  {
    hide TotalsAre, RecomputeAll, MoneyInv;
    var m1 := Store(m, k, p);
    forall j | j in m1.portfolios ensures PortfolioSound(m1, cfg, j) {
      if j != k { assert PortfolioSound(m, cfg, j); }
    }
    RecomputeAllInv(m1, cfg);
  }

  /** Taking `released` off one portfolio. */
  lemma TakeInv(m: Money, cfg: RiskConfig, k: nat, released: int, openOrders: nat)
    requires MoneyInv(m, cfg) && k in m.portfolios && 0 <= released <= m.portfolios[k].reserved
    ensures var p := m.portfolios[k];
            var p' := p.(openOrders := openOrders, reserved := p.reserved - released);
            MoneyInv(RecomputeAll(Store(m, k, p'), cfg), cfg)
  {
    hide TotalsAre, RecomputeAll, MoneyInv, Sound, OwnFresh, Store;
    var p := m.portfolios[k];
    var p' := p.(openOrders := openOrders, reserved := p.reserved - released);
    Standing(m, cfg, k);
    MoneyIsSound(m, cfg);
    SameTotals(m.positions, k, p, p');
    StoreAllInv(m, cfg, k, p');
  }

  // ------------------------------------------------------------------ totals

  lemma StorePositionSound(m: Money, cfg: RiskConfig, k: nat, was: Position, now: Position)
    requires Sound(m, cfg) && k in m.portfolios && was.strategy == now.strategy == k && was.market == now.market
    requires was == if (k, was.market) in m.positions then m.positions[(k, was.market)]
             else was.(exposure := 0, realized := 0, fees := 0)
    ensures Sound(StorePosition(m, k, m.portfolios[k], was, now), cfg)
  {
    hide TotalsAre, PositionsOwned;
    var m' := StorePosition(m, k, m.portfolios[k], was, now);
    assert PositionsOwned(m') by { StillOwned(m, k, was, now); }
    forall j | j in m'.portfolios ensures PortfolioSound(m', cfg, j) {
      SoundAt(m, cfg, j);
      ShiftedTotals(m.positions, k, j, m.portfolios[j], was, now);
    }
  }

  lemma StillOwned(m: Money, k: nat, was: Position, now: Position)
    requires PositionsOwned(m) && k in m.portfolios && now.strategy == k && was.market == now.market
    ensures PositionsOwned(StorePosition(m, k, m.portfolios[k], was, now))
  {
  }

  lemma ShiftedTotals(positions: map<(nat, nat), Position>, k: nat, j: nat, p: Portfolio, was: Position, now: Position)
    requires TotalsAre(positions, j, p) && was.strategy == now.strategy == k && was.market == now.market
    requires was == if (k, was.market) in positions then positions[(k, was.market)]
             else was.(exposure := 0, realized := 0, fees := 0)
    ensures TotalsAre(positions[(k, was.market) := now], j,
                      if j != k then p
                      else p.(inventory := p.inventory + now.exposure - was.exposure,
                              realized := p.realized + now.realized - was.realized,
                                  fees := p.fees + now.fees - was.fees))
  {
    hide Sum;
    SumUpdate(positions, (k, was.market), now, ExposureIn(j));
    SumUpdate(positions, (k, was.market), now, RealizedIn(j));
    SumUpdate(positions, (k, was.market), now, FeesIn(j));
  }

  lemma PositionOfFacts(m: Money, cfg: RiskConfig, k: nat, market: nat, event: nat)
    requires PositionsOwned(m)
    ensures var was := PositionOf(m, k, market, event);
            && was.strategy == k && was.market == market
            && was == if (k, market) in m.positions then m.positions[(k, market)]
            else was.(exposure := 0, realized := 0, fees := 0)
  {
  }

  /** account_fill() on money. */
  lemma FilledMoneyInv(m: Money, cfg: RiskConfig, o: Order, e: Fill, released: int)
    requires MoneyInv(m, cfg) && 0 <= released
    ensures MoneyInv(FilledMoney(m, cfg, o, e, released), cfg)
  {
    hide MoneyInv, EnsurePortfolio, FilledPosition, TotalsAre, RecomputeAll, Sound, StorePosition, OwnFresh;
    var k := o.context.strategy;
    EnsureInv(m, cfg, k);
    EnsureShape(m, cfg, k);
    var m1 := EnsurePortfolio(m, cfg, k);
    var was := PositionOf(m1, k, o.market, o.context.event);
    var now := FilledPosition(was, FillLots(o, e), YesPrice(o, e), e.average);
    FillsSamePlace(was, FillLots(o, e), YesPrice(o, e), e.average);
    MoneyIsSound(m1, cfg);
    PositionOfFacts(m1, cfg, k, o.market, o.context.event);
    StorePositionSound(m1, cfg, k, was, now);
    var m2 := StorePosition(m1, k, PortfolioOf(m1, cfg, k), was, now);
    StoredAt(m1, k, PortfolioOf(m1, cfg, k), was, now);
    var p := PortfolioOf(m2, cfg, k);
    SoundAt(m2, cfg, k);
    var p' := p.(reserved := p.reserved - Min(p.reserved, released));
    SameTotals(m2.positions, k, p, p');
    StoreAllInv(m2, cfg, k, p');
  }

  lemma FillsSamePlace(p: Position, lots: int, yesPrice: int, average: int)
    ensures FilledPosition(p, lots, yesPrice, average).strategy == p.strategy
    ensures FilledPosition(p, lots, yesPrice, average).market == p.market
  {
  }

  lemma MoneyIsSound(m: Money, cfg: RiskConfig)
    requires MoneyInv(m, cfg)
    ensures Sound(m, cfg) && PositionsOwned(m)
  {
  }

  lemma SoundAt(m: Money, cfg: RiskConfig, k: nat)
    requires Sound(m, cfg) && k in m.portfolios
    ensures PortfolioBounded(cfg, m.portfolios[k]) && TotalsAre(m.positions, k, m.portfolios[k])
  {
    assert PortfolioSound(m, cfg, k);
  }

  lemma StoredAt(m: Money, k: nat, p: Portfolio, was: Position, now: Position)
    ensures k in StorePosition(m, k, p, was, now).portfolios
    ensures StorePosition(m, k, p, was, now).portfolios[k].reserved == p.reserved
  {
  }

  /** The early return of account_fill() only makes the portfolio and the position exist. */
  lemma StoppedFillInv(m: Money, cfg: RiskConfig, k: nat, market: nat, event: nat)
    requires MoneyInv(m, cfg)
    ensures var m1 := EnsurePortfolio(m, cfg, k);
            MoneyInv(m1.(positions := m1.positions[(k, market) := PositionOf(m1, k, market, event)]), cfg)
  {
    hide EnsurePortfolio, MoneyInv;
    EnsureInv(m, cfg, k);
    EnsureShape(m, cfg, k);
    BlankAdded(EnsurePortfolio(m, cfg, k), cfg, k, market, event);
  }

  /** A blank position adds nothing to any total. */
  lemma BlankAdded(m: Money, cfg: RiskConfig, k: nat, market: nat, event: nat)
    requires MoneyInv(m, cfg) && k in m.portfolios
    ensures MoneyInv(m.(positions := m.positions[(k, market) := PositionOf(m, k, market, event)]), cfg)
  {
    hide TotalsAre, GlobalReserved, OwnFresh, Available;
    var was := PositionOf(m, k, market, event);
    var m' := m.(positions := m.positions[(k, market) := was]);
    PositionOfFacts(m, cfg, k, market, event);
    forall j | j in m'.portfolios ensures PortfolioSound(m', cfg, j) {
      assert PortfolioSound(m, cfg, j);
      ShiftedTotals(m.positions, k, j, m.portfolios[j], was, was);
      SameTotals(m'.positions, j, if j != k then m.portfolios[j] else
        m.portfolios[j].(inventory := m.portfolios[j].inventory + was.exposure - was.exposure,
                         realized := m.portfolios[j].realized + was.realized - was.realized,
                         fees := m.portfolios[j].fees + was.fees - was.fees), m.portfolios[j]);
    }
  }

  /** apply_venue_market_position(). */
  lemma VenuePositionInv(m: Money, cfg: RiskConfig, v: VenuePosition)
    requires MoneyInv(m, cfg)
    ensures MoneyInv(VenuePositionApplied(m, cfg, v), cfg)
  {
    if v.market != 0 && cfg.strategies == 1 {
      EnsureInv(m, cfg, 0);
      EnsureShape(m, cfg, 0);
      var m1 := EnsurePortfolio(m, cfg, 0);
      PositionOfFacts(m1, cfg, 0, v.market, v.event);
      var was := PositionOf(m1, 0, v.market, v.event);
      hide EnsurePortfolio, TotalsAre, RecomputeAll, Fresh;
      StorePositionSound(m1, cfg, 0, was, OverwrittenPosition(was, v));
      RecomputeAllInv(StorePosition(m1, 0, PortfolioOf(m1, cfg, 0), was, OverwrittenPosition(was, v)), cfg);
    }
  }

  // ---------------------------------------------------------------- snapshots

  /** Reporting one more market changes exactly that market's position. */
  lemma OneMoreMarket(m: Money, venue: map<nat, VenuePosition>, x: nat)
    requires x in venue
    ensures SnapshotPositions(m, venue) ==
            SnapshotPositions(m, venue - {x})[(0, x) := ReportedPosition(PositionOf(m, 0, x, 0), venue[x], x)]
    ensures (0, x) in SnapshotPositions(m, venue - {x}) <==> (0, x) in m.positions
    ensures (0, x) in m.positions ==>
              SnapshotPositions(m, venue - {x})[(0, x)] == DroppedPosition(m.positions[(0, x)], x)
  {
    assert SnapshotKeys(m, venue) == SnapshotKeys(m, venue - {x}) + {(0, x)};
    assert (0, x) in SnapshotKeys(m, venue - {x}) <==> (0, x) in m.positions;
    forall k | k in SnapshotKeys(m, venue) && k != (0, x)
      ensures SnapshotPosition(m, venue, k) == SnapshotPosition(m, venue - {x}, k) {
      if k.0 == 0 { assert k.1 != x; }
    }
  }

  /** A full snapshot replaces exposure, shifts what is realized and paid by the reported markets,
      and keeps what dropped markets realized and paid. */
  lemma {:induction false} SnapshotTotals(m: Money, venue: map<nat, VenuePosition>)
    requires PositionsOwned(m)
    ensures SnapshotAdds(m, venue)
    decreases |venue|
  {
    if |venue| == 0 {
      NothingReported(m, venue);
    } else {
      var x :| x in venue;
      SnapshotTotals(m, venue - {x});
      OneMoreReported(m, venue, x);
    }
  }

  /** What a snapshot does to the sums over the positions of strategy 0. */
  ghost predicate SnapshotAdds(m: Money, venue: map<nat, VenuePosition>) {
    var after := SnapshotPositions(m, venue);
    && Sum(after, ExposureIn(0)) == Sum(Shifts(m, venue), ShiftExposure)
    && Sum(after, RealizedIn(0)) == Sum(m.positions, RealizedIn(0)) + Sum(Shifts(m, venue), ShiftRealized)
    && Sum(after, FeesIn(0)) == Sum(m.positions, FeesIn(0)) + Sum(Shifts(m, venue), ShiftFees)
  }

  lemma OneMoreReported(m: Money, venue: map<nat, VenuePosition>, x: nat)
    requires PositionsOwned(m) && x in venue && SnapshotAdds(m, venue - {x})
    ensures SnapshotAdds(m, venue)
  {
    hide SnapshotPositions, ReportedPosition, Sum, Shifts;
    OneMoreMarket(m, venue, x);
    OneMoreShift(m, venue, x);
    var rest := SnapshotPositions(m, venue - {x});
    var now := ReportedPosition(PositionOf(m, 0, x, 0), venue[x], x);
    ReportedFacts(PositionOf(m, 0, x, 0), venue[x], x);
    SumUpdate(rest, (0, x), now, ExposureIn(0));
    SumUpdate(rest, (0, x), now, RealizedIn(0));
    SumUpdate(rest, (0, x), now, FeesIn(0));
  }

  lemma ReportedFacts(was: Position, v: VenuePosition, x: nat)
    ensures ReportedPosition(was, v, x).strategy == 0 && ReportedPosition(was, v, x).market == x
  {
  }

  lemma OneMoreShift(m: Money, venue: map<nat, VenuePosition>, x: nat)
    requires x in venue
    ensures Sum(Shifts(m, venue), ShiftExposure) == ShiftOf(m, venue[x], x).exposure
            + Sum(Shifts(m, venue - {x}), ShiftExposure)
    ensures Sum(Shifts(m, venue), ShiftRealized) == ShiftOf(m, venue[x], x).realized
            + Sum(Shifts(m, venue - {x}), ShiftRealized)
    ensures Sum(Shifts(m, venue), ShiftFees) == ShiftOf(m, venue[x], x).fees + Sum(Shifts(m, venue - {x}), ShiftFees)
  {
    hide ShiftOf;
    assert Shifts(m, venue) - {x} == Shifts(m, venue - {x});
    SumTake(Shifts(m, venue), x, ShiftExposure);
    SumTake(Shifts(m, venue), x, ShiftRealized);
    SumTake(Shifts(m, venue), x, ShiftFees);
  }

  lemma NothingReported(m: Money, venue: map<nat, VenuePosition>)
    requires PositionsOwned(m) && |venue| == 0
    ensures SnapshotAdds(m, venue)
  {
    hide Sum;
    assert venue.Keys == {};
    NoShift(m, venue, ShiftExposure);
    NoShift(m, venue, ShiftRealized);
    NoShift(m, venue, ShiftFees);
    SameWhenAllDropped(m, venue, RealizedIn(0));
    SameWhenAllDropped(m, venue, FeesIn(0));
    SumZero(SnapshotPositions(m, venue), ExposureIn(0));
  }

  lemma NoShift(m: Money, venue: map<nat, VenuePosition>, f: Shift -> int)
    requires venue.Keys == {}
    ensures Sum(Shifts(m, venue), f) == 0
  {
    SumZero(Shifts(m, venue), f);
  }

  lemma SameWhenAllDropped(m: Money, venue: map<nat, VenuePosition>, f: Position -> int)
    requires PositionsOwned(m) && venue.Keys == {}
    requires forall p: Position, x: nat :: p.strategy == 0 ==> f(DroppedPosition(p, x)) == f(p)
    ensures Sum(SnapshotPositions(m, venue), f) == Sum(m.positions, f)
  {
    var after := SnapshotPositions(m, venue);
    assert after.Keys == m.positions.Keys;
    forall key | key in after ensures f(after[key]) == f(m.positions[key]) {
      if key.0 == 0 { assert after[key] == DroppedPosition(m.positions[key], key.1); }
    }
    SumSame(after, m.positions, f, f);
  }

  /** The positions of other strategies are untouched. */
  lemma SnapshotOthers(m: Money, venue: map<nat, VenuePosition>, k: nat, p: Portfolio)
    requires PositionsOwned(m) && k != 0 && TotalsAre(m.positions, k, p)
    ensures TotalsAre(SnapshotPositions(m, venue), k, p)
  {
    hide SnapshotPositions, Sum;
    OtherTotal(m, venue, k, ExposureIn(k));
    OtherTotal(m, venue, k, RealizedIn(k));
    OtherTotal(m, venue, k, FeesIn(k));
  }

  lemma OtherTotal(m: Money, venue: map<nat, VenuePosition>, k: nat, f: Position -> int)
    requires PositionsOwned(m) && k != 0 && forall p: Position :: p.strategy != k ==> f(p) == 0
    ensures Sum(SnapshotPositions(m, venue), f) == Sum(m.positions, f)
  {
    hide SnapshotPositions, Sum;
    OthersKept(m, venue, k);
    var after := SnapshotPositions(m, venue);
    forall key | key in m.positions ensures f(after[key]) == f(m.positions[key]) {
      if key.0 == 0 { assert after[key].strategy == m.positions[key].strategy == 0; }
    }
    SumGrows(m.positions, after, f);
  }

  lemma OthersKept(m: Money, venue: map<nat, VenuePosition>, k: nat)
    requires PositionsOwned(m) && k != 0
    ensures var after := SnapshotPositions(m, venue);
            && m.positions.Keys <= after.Keys
            && (forall key :: key in m.positions && key.0 != 0 ==> after[key] == m.positions[key])
            && (forall key :: key in after && key.0 == 0 ==> after[key].strategy == 0)
            && (forall key :: key in after && key !in m.positions ==> after[key].strategy == 0)
  {
    hide ReportedPosition;
    forall x, v ensures ReportedPosition(PositionOf(m, 0, x, 0), v, x).strategy == 0 {
      ReportedFacts(PositionOf(m, 0, x, 0), v, x);
    }
  }

  lemma AdoptSound(m: Money, cfg: RiskConfig, venue: map<nat, VenuePosition>)
    requires Sound(m, cfg)
    ensures Sound(AdoptPositions(m, cfg, venue), cfg)
  {
    hide EnsurePortfolio, SnapshotPositions, Shifts, TotalsAre, PositionsOwned, Sum;
    EnsureShape(m, cfg, 0);
    var m' := AdoptPositions(m, cfg, venue);
    assert PositionsOwned(m') by { SnapshotOwned(m, cfg, venue); }
    forall k | k in m'.portfolios ensures PortfolioSound(m', cfg, k) {
      if k == 0 {
        AdoptedTotals(m, cfg, venue);
      } else {
        SoundAt(m, cfg, k);
        SnapshotOthers(m, venue, k, m.portfolios[k]);
      }
    }
  }

  lemma AdoptedTotals(m: Money, cfg: RiskConfig, venue: map<nat, VenuePosition>)
    requires Sound(m, cfg)
    ensures 0 in AdoptPositions(m, cfg, venue).portfolios
    ensures PortfolioSound(AdoptPositions(m, cfg, venue), cfg, 0)
  {
    hide EnsurePortfolio, SnapshotPositions, Shifts, Sum;
    EnsureShape(m, cfg, 0);
    SnapshotTotals(m, venue);
    if 0 in m.portfolios { SoundAt(m, cfg, 0); } else { NoPositionsNoTotals(m, cfg, 0); }
  }

  lemma SnapshotOwned(m: Money, cfg: RiskConfig, venue: map<nat, VenuePosition>)
    requires PositionsOwned(m)
    ensures PositionsOwned(AdoptPositions(m, cfg, venue))
  {
    hide EnsurePortfolio, ReportedPosition, Shifts, Sum;
    EnsureShape(m, cfg, 0);
    forall x, v
      ensures ReportedPosition(PositionOf(m, 0, x, 0), v, x).strategy == 0
      ensures ReportedPosition(PositionOf(m, 0, x, 0), v, x).market == x {
      ReportedFacts(PositionOf(m, 0, x, 0), v, x);
    }
  }

  /** The venue money of a complete snapshot. */
  lemma SnapshotInv(m: Money, cfg: RiskConfig, balance: int, venue: map<nat, VenuePosition>)
    requires MoneyInv(m, cfg)
    ensures var m1 := m.(balance := balance, reconciled := true);
            MoneyInv(RecomputeAll(if cfg.strategies == 1 then AdoptPositions(m1, cfg, venue) else m1, cfg), cfg)
  {
    hide TotalsAre, RecomputeAll, AdoptPositions, Fresh;
    var m1 := m.(balance := balance, reconciled := true);
    SoundAnyway(m, m1, cfg);
    AdoptSound(m1, cfg, venue);
    RecomputeAllInv(if cfg.strategies == 1 then AdoptPositions(m1, cfg, venue) else m1, cfg);
  }

  lemma SoundAnyway(m: Money, m1: Money, cfg: RiskConfig)
    requires Sound(m, cfg) && m1.portfolios == m.portfolios && m1.positions == m.positions
    ensures Sound(m1, cfg)
  {
    hide TotalsAre;
    forall k | k in m1.portfolios ensures PortfolioSound(m1, cfg, k) { assert PortfolioSound(m, cfg, k); }
  }

  /** Losing the reconciliation. */
  lemma UnreconciledInv(m: Money, cfg: RiskConfig)
    requires MoneyInv(m, cfg)
    ensures MoneyInv(RecomputeAll(m.(reconciled := false), cfg), cfg)
  {
    hide TotalsAre, RecomputeAll, Fresh;
    SoundAnyway(m, m.(reconciled := false), cfg);
    RecomputeAllInv(m.(reconciled := false), cfg);
  }

  // --------------------------------------------------- one strategy, one venue

  /** With one portfolio, an admission also fits the reconciled balance less the safety reserve. */
  lemma SingleStrategyFits(m: Money, cfg: RiskConfig, k: nat, amount: nat)
    requires ValidRisk(cfg) && MoneyInv(m, cfg) && m.portfolios.Keys <= {k}
    requires cfg.required && Reserve(m, cfg, k, amount).1
    ensures var m' := Reserve(m, cfg, k, amount).0;
            && m'.portfolios.Keys == {k} && m.reconciled
            && Sum(m'.portfolios, PositiveReserved) <= VenueAfterSafety(cfg, m.balance)
  {
    hide EnsurePortfolio, MoneyInv, Sum;
    EnsureInv(m, cfg, k);
    EnsureShape(m, cfg, k);
    var m1 := EnsurePortfolio(m, cfg, k);
    var m' := Reserve(m, cfg, k, amount).0;
    assert m1.portfolios.Keys == {k};
    assert m'.portfolios.Keys == {k};
    SingleSum(m1.portfolios, k);
    SingleSum(m'.portfolios, k);
    AloneAvailable(m1, cfg, k);
    Standing(m1, cfg, k);
  }

  lemma AloneAvailable(m: Money, cfg: RiskConfig, k: nat)
    requires MoneyInv(m, cfg) && m.portfolios.Keys == {k}
    ensures m.portfolios[k].available ==
            Available(cfg, m.reconciled, m.balance, GlobalReserved(m.portfolios), m.portfolios[k])
  {
    hide Sound, GlobalReserved, Available;
    assert |m.portfolios| == |m.portfolios.Keys| == 1;
    assert m.portfolios[k] == Recomputed(m, cfg, m.portfolios[k]);
  }

  lemma SingleSum(portfolios: map<nat, Portfolio>, k: nat)
    requires portfolios.Keys == {k}
    ensures Sum(portfolios, PositiveReserved) == Max(0, portfolios[k].reserved)
  {
    SumTake(portfolios, k, PositiveReserved);
    SumEmpty(portfolios - {k}, PositiveReserved);
  }
}
