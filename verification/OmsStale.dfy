/** Two strategies sharing a venue balance: a run after which one strategy's available capital is
    stale, because a reservation refreshes only its own portfolio. */
module OmsStale {
  import opened Wrappers
  import Bits
  import opened Sums
  import opened OmsTypes
  import opened Oms
  import opened OmsMoney
  import opened OmsRuns

  const TwoStrategies := RiskConfig(1000, 0, 1000, 10, 2, 1, 0, true, 2)
  const OpenQueue := Queue((k: nat) => true, (k: nat) => 100)
  const Universe1 := OrderUniverse(1, [MarketRoute(1, 7, true), MarketRoute(2, 7, true)])

  function LegContext(strategy: nat, i: nat): Context {
    Context(strategy, i + 1, 7, 1, i + 1, 1, 1, i, 2, 1, 1, 0, 1, 1, 1, 1, 1, 1)
  }

  function OneLeg(strategy: nat, i: nat, lots: int): NewOrder {
    NewOrder(LegContext(strategy, i), Yes, if i == 0 then Buy else Sell, Taker, MarketableLimit, Fok, 5000, lots)
  }

  const TwoLegs := GroupIntent(LegContext(0, 0), [OneLeg(0, 0, 1), OneLeg(0, 1, 1)], AllOrNone, 2, 1, 1)

  // A universe is installed and reconciled at 300 ticks, strategy 1 asks for more than that, then
  // strategy 0 gets a group of two lots.
  const Setup: seq<Event> := [
    ApplyUniverse(Some(Universe1)), PumpReconciliation(0), SnapshotArrives(PortfolioSnapshot(1, 1, true, 300, []), 0),
    AllowTrading, NewOrderArrives(OneLeg(1, 0, 4))]
  const LastEvent := GroupArrives(TwoLegs, 1, Some(3))

  const Trading: State := State(
    Desk(map[], map[], 1), Wire(1, [RequestReconciliation(1, 1)]), map[], map[], 1, map[],
    Money(map[], map[], 300, true),
    Gate(false, true, Some(Universe1), 1, 2, 0, 0, false))

  const Refused: State := Trading.(
    desk := Desk(map[], map[], 2), money := Money(map[1 := Portfolio(1000, 300, 0, 0, 0, 0, 0, 0)], map[], 300, true))

  lemma RunCons(s: State, q: Queue, cfg: RiskConfig, ev: Event, evs: seq<Event>)
    requires Enabled(s, cfg, ev)
    ensures ValidRun(s, q, cfg, [ev] + evs) <==> ValidRun(Step(s, q, cfg, ev), q, cfg, evs)
    ensures ValidRun(s, q, cfg, [ev] + evs) ==> Run(s, q, cfg, [ev] + evs) == Run(Step(s, q, cfg, ev), q, cfg, evs)
  {
    hide Step, Enabled;
    assert ([ev] + evs)[1..] == evs;
  }

  lemma NoPortfolios(m: Money)
    requires m.portfolios == map[]
    ensures RecomputeAll(m, TwoStrategies) == m
  {
    hide Available, GlobalReserved;
  }

  const Installed: State := Initial.(gate := Gate(false, false, Some(Universe1), 0, 1, 0, 0, true))
  const Requested: State :=
    Initial.(wire := Trading.wire, gate := Gate(false, false, Some(Universe1), 0, 2, 1, 0, false))
  const Reconciled: State := Trading.(gate := Trading.gate.(trading := false))

  lemma Installs()
    ensures Step(Initial, OpenQueue, TwoStrategies, Setup[0]) == Installed
  {
    hide RecomputeAll;
    NoPortfolios(Initial.money.(reconciled := false));
  }

  lemma Requests()
    ensures Step(Installed, OpenQueue, TwoStrategies, Setup[1]) == Requested
  {
    hide MaybeReconcile;
    assert MaybeReconcile(Installed, OpenQueue, TwoStrategies, 0) == Requested by { RequestSent(); }
  }

  lemma RequestSent()
    ensures MaybeReconcile(Installed, OpenQueue, TwoStrategies, 0) == Requested
  {
    assert ReconciliationDue(Installed, TwoStrategies, 0);
    assert [] + [RequestReconciliation(1, 1)] == [RequestReconciliation(1, 1)];
  }

  lemma Reconciles()
    ensures Step(Requested, OpenQueue, TwoStrategies, Setup[2]) == Reconciled
  {
    hide RecomputeAll;
    NoPortfolios(Trading.money);
  }

  lemma Enables()
    ensures Step(Reconciled, OpenQueue, TwoStrategies, Setup[3]) == Trading
  {
  }

  /** The first four events install, reconcile and enable. */
  lemma StartsTrading(evs: seq<Event>)
    requires ValidRun(Trading, OpenQueue, TwoStrategies, evs)
    ensures ValidRun(Initial, OpenQueue, TwoStrategies, Setup[..4] + evs)
    ensures Run(Initial, OpenQueue, TwoStrategies, Setup[..4] + evs) == Run(Trading, OpenQueue, TwoStrategies, evs)
  {
    hide ValidRun, Run, Step, Installed, Requested, Reconciled, Trading, Initial;
    Installs();
    Requests();
    Reconciles();
    Enables();
    var e3 := [Setup[3]] + evs;
    var e2 := [Setup[2]] + e3;
    var e1 := [Setup[1]] + e2;
    RunCons(Reconciled, OpenQueue, TwoStrategies, Setup[3], evs);
    RunCons(Requested, OpenQueue, TwoStrategies, Setup[2], e3);
    RunCons(Installed, OpenQueue, TwoStrategies, Setup[1], e2);
    RunCons(Initial, OpenQueue, TwoStrategies, Setup[0], e1);
    assert Setup[..4] + evs == [Setup[0]] + e1;
  }

  lemma OnePortfolio(k: nat, p: Portfolio)
    ensures GlobalReserved(map[k := p]) == Min(Bits.I64_MAX, Max(0, p.reserved))
  {
    hide Sum;
    SingleSum(map[k := p], k);
  }

  lemma TwoPortfolios(portfolios: map<nat, Portfolio>)
    requires portfolios.Keys == {0, 1}
    ensures Sum(portfolios, PositiveReserved) == Max(0, portfolios[0].reserved) + Max(0, portfolios[1].reserved)
  {
    SumTake(portfolios, 0, PositiveReserved);
    SingleSum(portfolios - {0}, 1);
  }

  /** Strategy 1 is refused for lack of capital, but its portfolio now shows the whole balance. */
  lemma OrderRefused()
    ensures Step(Trading, OpenQueue, TwoStrategies, Setup[4]) == Refused
  {
    hide GlobalReserved;
    var p := PortfolioOf(Trading.money, TwoStrategies, 1);
    assert map[][1 := p] == map[1 := p];
    OnePortfolio(1, p);
    assert FindRoute(Universe1.routes[..1], 1) == Some(Universe1.routes[0]);
    assert JudgeNewOrder(Trading, TwoStrategies, OneLeg(1, 0, 4)).None?;
  }

  lemma GroupJudged()
    ensures JudgeGroup(Refused, TwoStrategies, TwoLegs, 1, Some(3)) == (None, 200)
  {
    assert Universe1.routes[..1] == [MarketRoute(1, 7, true)];
    assert FindRoute(Universe1.routes, 2) == Some(MarketRoute(2, 7, true));
    assert FindRoute(Universe1.routes[..1], 1) == Some(MarketRoute(1, 7, true));
    assert JudgeLeg(Some(Universe1), TwoLegs, 0).None? && JudgeLeg(Some(Universe1), TwoLegs, 1).None?;
    assert JudgeLegs(Some(Universe1), TwoLegs, 2, 200) == (None, 200);
  }

  /** Strategy 0 gets its 200 ticks. */
  lemma GroupReserved()
    ensures var (m, ok) := Reserve(Refused.money, TwoStrategies, 0, 200);
            && ok && m.portfolios.Keys == {0, 1} && m.balance == 300 && m.reconciled
            && m.portfolios[0].reserved == 200 && m.portfolios[1] == Refused.money.portfolios[1]
  {
    hide GlobalReserved, Sum;
    var p := PortfolioOf(Refused.money, TwoStrategies, 0);
    var with := Refused.money.portfolios[0 := p];
    assert with.Keys == {0, 1};
    assert GlobalReserved(with) == 0 by { TwoReserved(with, 0); }
  }

  lemma TwoReserved(portfolios: map<nat, Portfolio>, amount: nat)
    requires portfolios.Keys == {0, 1} && portfolios[0].reserved == amount <= Bits.I64_MAX
    requires portfolios[1].reserved == 0
    ensures GlobalReserved(portfolios) == amount
  {
    hide Sum;
    TwoPortfolios(portfolios);
  }

  /** What the admission leaves: strategy 1 still shows 300 ticks, of which 200 are gone. */
  lemma GroupAdmitted()
    ensures var m := Step(Refused, OpenQueue, TwoStrategies, LastEvent).money;
            && 1 in m.portfolios && m.portfolios[1].available == 300
            && Recomputed(m, TwoStrategies, m.portfolios[1]).available == 100
  {
    hide JudgeGroup, Reserve, GlobalReserved, WithLegs, LegCommands, FreshGroup;
    GroupJudged();
    GroupReserved();
    var m := Step(Refused, OpenQueue, TwoStrategies, LastEvent).money;
    assert m.portfolios.Keys == {0, 1};
    TwoReserved(m.portfolios, 200);
  }

  /** A run of the code after which another strategy's available capital is stale. */
  lemma OtherStrategyGoesStale()
    ensures ValidRun(Initial, OpenQueue, TwoStrategies, Setup + [LastEvent])
    ensures var m := Run(Initial, OpenQueue, TwoStrategies, Setup + [LastEvent]).money;
            && 1 in m.portfolios && m.portfolios[1].available == 300
            && Recomputed(m, TwoStrategies, m.portfolios[1]).available == 100
  {
    hide Step, ValidRun, Run;
    assert Enabled(Trading, TwoStrategies, Setup[4]) && Enabled(Refused, TwoStrategies, LastEvent);
    OrderRefused();
    GroupAdmitted();
    EmptyRun(Step(Refused, OpenQueue, TwoStrategies, LastEvent));
    assert [LastEvent] + [] == [LastEvent] && [Setup[4]] + [LastEvent] == [Setup[4], LastEvent];
    RunCons(Refused, OpenQueue, TwoStrategies, LastEvent, []);
    RunCons(Trading, OpenQueue, TwoStrategies, Setup[4], [LastEvent]);
    StartsTrading([Setup[4], LastEvent]);
    assert Setup[..4] + [Setup[4], LastEvent] == Setup + [LastEvent];
  }

  lemma EmptyRun(s: State)
    ensures ValidRun(s, OpenQueue, TwoStrategies, []) && Run(s, OpenQueue, TwoStrategies, []) == s
  {
  }
}
