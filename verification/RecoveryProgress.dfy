/** Why recovery ends: the retry delay, the attempt bound, and a measure that every applied
    transition of a market lowers. */
module RecoveryProgress {
  import opened Bits
  import opened Recovery

  /** retry_backoff() as written: a doubling loop that stops before it could exceed the cap. */
  method RetryBackoff(cfg: Config, attempts: nat) returns (delay: nat)
    ensures delay == Backoff(cfg, attempts)
    ensures attempts >= 1 ==>
              delay == if cfg.initialBackoff * Pow2(attempts - 1) <= cfg.maxBackoff
                       then cfg.initialBackoff * Pow2(attempts - 1) else cfg.maxBackoff
  {
    delay := if cfg.initialBackoff <= cfg.maxBackoff then cfg.initialBackoff else cfg.maxBackoff;
    var attempt := 1;
    while attempt < attempts && delay < cfg.maxBackoff
      invariant 1 <= attempt && (attempt <= attempts || attempt == 1)
      invariant delay <= cfg.maxBackoff   // so the doubling below stays within the cap
      invariant delay < cfg.maxBackoff ==> delay == cfg.initialBackoff * Pow2(attempt - 1)
      invariant delay == cfg.maxBackoff ==> cfg.initialBackoff * Pow2(attempt - 1) >= cfg.maxBackoff
    {
      assert Pow2(attempt) == 2 * Pow2(attempt - 1);
      assert cfg.initialBackoff * Pow2(attempt) == 2 * (cfg.initialBackoff * Pow2(attempt - 1));
      if delay > cfg.maxBackoff / 2 {
        DoublingGrows(cfg.initialBackoff, attempt, attempts - 1);
        return cfg.maxBackoff;
      }
      delay := delay * 2;
      attempt := attempt + 1;
    }
    if attempt < attempts {
      DoublingGrows(cfg.initialBackoff, attempt - 1, attempts - 1);
    }
  }

  lemma {:induction false} DoublingGrows(x: nat, j: nat, k: nat)
    requires j <= k
    ensures x * Pow2(j) <= x * Pow2(k)
  {
    PowersDivide(j, k);
    assert x * Pow2(k) == (x * Pow2(j)) * Pow2(k - j);
    MulMono(1, Pow2(k - j), if x * Pow2(j) == 0 then 1 else x * Pow2(j));
  }

  /** The delay before each retry is never shorter than the delay before the previous one. */
  lemma BackoffMonotone(cfg: Config, j: nat, k: nat)
    requires j <= k
    ensures Backoff(cfg, j) <= Backoff(cfg, k)
  {
    DoublingGrows(cfg.initialBackoff, if j == 0 then 0 else j - 1, if k == 0 then 0 else k - 1);
  }

  /** Attempts an entry may spend; a configured bound of zero still sends the first request. */
  function Allowed(cfg: Config): nat {
    if cfg.maxAttempts == 0 then 1 else cfg.maxAttempts
  }

  predicate EntryBounded(cfg: Config, e: Entry) {
    && e.attempts <= Allowed(cfg)
    && (e.phase.PendingRequest? ==> e.attempts < Allowed(cfg))
    && (e.phase.RequestEnqueued? || e.phase.RequestAccepted? ==> 0 < e.attempts)
  }

  predicate Bounded(cfg: Config, c: Coordinator) {
    forall r, i :: r in c.incidents && 0 <= i < |c.incidents[r].entries| ==>
      EntryBounded(cfg, c.incidents[r].entries[i])
  }

  /** Applied transitions an entry can still make. */
  function Work(cfg: Config, e: Entry): int {
    var left := 3 * (Allowed(cfg) - e.attempts);
    match e.phase
    case PendingRequest => left + 1
    case RequestEnqueued => left + 3
    case RequestAccepted => left + 2
    case Failed => 1
    case SnapshotApplied => 0
    case Superseded => 0
  }

  /** The operations that move entries. */
  datatype Op =
    | OpObserveMarket(mf: MarketFact, mu: Universe)
    | OpObserveBarrier(bf: BarrierFact, bu: Universe)
    | OpSupersede(version: nat)
    | OpMark(cmd: Command)
    | OpAccepted(af: RequestFact)
    | OpFailed(ff: RequestFact)
    | OpApplied(sf: AppliedFact, su: Universe)
    | OpExpire

  predicate OpAllowed(c: Coordinator, op: Op, now: int) {
    match op
    case OpObserveBarrier(f, u) =>
      JudgeBarrier(c, f, u, now).Create? ==> DistinctMarkets(JudgeBarrier(c, f, u, now).entries)
    case _ => true
  }

  function Do(cfg: Config, c: Coordinator, op: Op, now: int): Coordinator {
    match op
    case OpObserveMarket(f, u) => ObserveMarket(c, f, u, now).0
    case OpObserveBarrier(f, u) => ObserveBarrier(c, f, u, now).0
    case OpSupersede(v) => Supersede(c, v, now)
    case OpMark(cmd) => MarkEnqueued(c, cmd, now).0
    case OpAccepted(f) => HandleAccepted(c, f, now).0
    case OpFailed(f) => HandleFailed(c, cfg, f, now).0
    case OpApplied(f, u) => HandleApplied(c, f, u, now).0
    case OpExpire => Expire(c, cfg, now)
  }

  predicate HasEntry(c: Coordinator, r: nat, i: nat) {
    r in c.incidents && i < |c.incidents[r].entries|
  }

  function EntryAt(c: Coordinator, r: nat, i: nat): Entry
    requires HasEntry(c, r, i)
  {
    c.incidents[r].entries[i]
  }

  /** A transition: the phase or the attempt count of the entry moved. */
  predicate Moved(e: Entry, e': Entry) {
    e.phase != e'.phase || e.attempts != e'.attempts
  }

  lemma FailureLowersWork(cfg: Config, e: Entry, now: int)
    requires EntryBounded(cfg, e) && (e.phase.RequestEnqueued? || e.phase.RequestAccepted?)
    ensures EntryBounded(cfg, AfterFailure(cfg, e, now))
    ensures 0 <= Work(cfg, AfterFailure(cfg, e, now)) < Work(cfg, e)
  {
  }

  /** An entry outlives every operation, keeps its market, stays within the attempt bound, and any
      transition it makes lowers its remaining work. */
  ghost predicate EntryStep(cfg: Config, e: Entry, e': Entry) {
    && e'.market == e.market
    && EntryBounded(cfg, e')
    && 0 <= Work(cfg, e') <= Work(cfg, e)
    && (Moved(e, e') ==> Work(cfg, e') < Work(cfg, e))
  }

  lemma ObservedMarketEntry(c: Coordinator, f: MarketFact, u: Universe, now: int, r: nat, i: nat)
    requires Coherent(c) && HasEntry(c, r, i)
    ensures HasEntry(ObserveMarket(c, f, u, now).0, r, i)
    ensures EntryAt(ObserveMarket(c, f, u, now).0, r, i) == EntryAt(c, r, i)
  {
  }

  lemma ObservedBarrierEntry(c: Coordinator, f: BarrierFact, u: Universe, now: int, r: nat, i: nat)
    requires Coherent(c) && HasEntry(c, r, i)
    ensures HasEntry(ObserveBarrier(c, f, u, now).0, r, i)
    ensures EntryAt(ObserveBarrier(c, f, u, now).0, r, i) == EntryAt(c, r, i)
  {
  }

  lemma SupersededEntry(cfg: Config, c: Coordinator, version: nat, now: int, r: nat, i: nat)
    requires HasEntry(c, r, i) && EntryBounded(cfg, EntryAt(c, r, i))
    ensures HasEntry(Supersede(c, version, now), r, i)
    ensures EntryStep(cfg, EntryAt(c, r, i), EntryAt(Supersede(c, version, now), r, i))
  {
    SupersededIsFinished(c.incidents[r], version, now);
  }

  lemma MarkedEntry(cfg: Config, c: Coordinator, cmd: Command, now: int, r: nat, i: nat)
    requires HasEntry(c, r, i) && EntryBounded(cfg, EntryAt(c, r, i))
    ensures HasEntry(MarkEnqueued(c, cmd, now).0, r, i)
    ensures EntryStep(cfg, EntryAt(c, r, i), EntryAt(MarkEnqueued(c, cmd, now).0, r, i))
  {
  }

  lemma AcceptedEntry(cfg: Config, c: Coordinator, f: RequestFact, now: int, r: nat, i: nat)
    requires HasEntry(c, r, i) && EntryBounded(cfg, EntryAt(c, r, i))
    ensures HasEntry(HandleAccepted(c, f, now).0, r, i)
    ensures EntryStep(cfg, EntryAt(c, r, i), EntryAt(HandleAccepted(c, f, now).0, r, i))
  {
  }

  lemma FailedEntry(cfg: Config, c: Coordinator, f: RequestFact, now: int, r: nat, i: nat)
    requires HasEntry(c, r, i) && EntryBounded(cfg, EntryAt(c, r, i))
    ensures HasEntry(HandleFailed(c, cfg, f, now).0, r, i)
    ensures EntryStep(cfg, EntryAt(c, r, i), EntryAt(HandleFailed(c, cfg, f, now).0, r, i))
  {
    var e := EntryAt(c, r, i);
    if e.phase.RequestEnqueued? || e.phase.RequestAccepted? { FailureLowersWork(cfg, e, now); }
  }

  lemma AppliedEntry(cfg: Config, c: Coordinator, f: AppliedFact, u: Universe, now: int, r: nat, i: nat)
    requires HasEntry(c, r, i) && EntryBounded(cfg, EntryAt(c, r, i))
    ensures HasEntry(HandleApplied(c, f, u, now).0, r, i)
    ensures EntryStep(cfg, EntryAt(c, r, i), EntryAt(HandleApplied(c, f, u, now).0, r, i))
  {
  }

  lemma ExpiredEntry(cfg: Config, c: Coordinator, now: int, r: nat, i: nat)
    requires HasEntry(c, r, i) && EntryBounded(cfg, EntryAt(c, r, i))
    ensures HasEntry(Expire(c, cfg, now), r, i)
    ensures EntryStep(cfg, EntryAt(c, r, i), EntryAt(Expire(c, cfg, now), r, i))
  {
    var e := EntryAt(c, r, i);
    if TimedOut(cfg, e, now) { FailureLowersWork(cfg, e, now); }
  }

  lemma OpEntryStep(cfg: Config, c: Coordinator, op: Op, now: int, r: nat, i: nat)
    requires Coherent(c) && HasEntry(c, r, i) && EntryBounded(cfg, EntryAt(c, r, i))
    ensures HasEntry(Do(cfg, c, op, now), r, i)
    ensures EntryStep(cfg, EntryAt(c, r, i), EntryAt(Do(cfg, c, op, now), r, i))
  {
    hide Coherent, ObserveMarket, ObserveBarrier, Supersede, MarkEnqueued, HandleAccepted, HandleFailed, HandleApplied,
         Expire;
    match op
    case OpObserveMarket(f, u) => ObservedMarketEntry(c, f, u, now, r, i);
    case OpObserveBarrier(f, u) => ObservedBarrierEntry(c, f, u, now, r, i);
    case OpSupersede(version) => SupersededEntry(cfg, c, version, now, r, i);
    case OpMark(cmd) => MarkedEntry(cfg, c, cmd, now, r, i);
    case OpAccepted(f) => AcceptedEntry(cfg, c, f, now, r, i);
    case OpFailed(f) => FailedEntry(cfg, c, f, now, r, i);
    case OpApplied(f, u) => AppliedEntry(cfg, c, f, u, now, r, i);
    case OpExpire => ExpiredEntry(cfg, c, now, r, i);
  }

  /** An entry that an operation adds has made no attempt. */
  lemma AddedBounded(cfg: Config, c: Coordinator, op: Op, now: int, r: nat, i: nat)
    requires !HasEntry(c, r, i) && HasEntry(Do(cfg, c, op, now), r, i)
    ensures EntryBounded(cfg, EntryAt(Do(cfg, c, op, now), r, i))
  {
    hide Finished;
  }

  lemma OpBounded(cfg: Config, c: Coordinator, op: Op, now: int)
    requires Coherent(c) && Bounded(cfg, c)
    ensures Bounded(cfg, Do(cfg, c, op, now))
  {
    hide Coherent, Do, EntryBounded;
    var c' := Do(cfg, c, op, now);
    forall r, i | r in c'.incidents && 0 <= i < |c'.incidents[r].entries|
      ensures EntryBounded(cfg, c'.incidents[r].entries[i])
    {
      if HasEntry(c, r, i) {
        assert EntryBounded(cfg, c.incidents[r].entries[i]);
        OpEntryStep(cfg, c, op, now, r, i);
      } else {
        AddedBounded(cfg, c, op, now, r, i);
      }
    }
  }

  lemma OpCoherent(cfg: Config, c: Coordinator, op: Op, now: int)
    requires Coherent(c) && OpAllowed(c, op, now)
    ensures Coherent(Do(cfg, c, op, now))
  {
    match op
    case OpObserveMarket(f, u) => ObserveMarketCoherent(c, f, u, now);
    case OpObserveBarrier(f, u) => ObserveBarrierCoherent(c, f, u, now);
    case OpSupersede(v) => if v != 0 { SupersedeCoherent(c, v, now); }
    case OpMark(cmd) => MarkCoherent(c, cmd, now, 0);
    case OpAccepted(f) => AcceptedCoherent(c, f, now, 0);
    case OpFailed(f) => FailedCoherent(c, cfg, f, now, 0);
    case OpApplied(f, u) => AppliedCoherent(c, f, u, now, 0);
    case OpExpire => ExpireCoherent(c, cfg, now, 0);
  }

  // ------------------------------------------------------------------- runs

  datatype Timed = Timed(op: Op, at: int)

  ghost predicate RunAllowed(cfg: Config, c: Coordinator, ops: seq<Timed>)
    decreases |ops|
  {
    ops != [] ==>
      OpAllowed(c, ops[0].op, ops[0].at) && RunAllowed(cfg, Do(cfg, c, ops[0].op, ops[0].at), ops[1..])
  }

  function RunOps(cfg: Config, c: Coordinator, ops: seq<Timed>): Coordinator
    decreases |ops|
  {
    if ops == [] then c else RunOps(cfg, Do(cfg, c, ops[0].op, ops[0].at), ops[1..])
  }

  /** Transitions the entry makes during the run. */
  ghost function Transitions(cfg: Config, c: Coordinator, ops: seq<Timed>, r: nat, i: nat): nat
    decreases |ops|
  {
    if ops == [] || !HasEntry(c, r, i) then 0
    else
      var c' := Do(cfg, c, ops[0].op, ops[0].at);
      (if HasEntry(c', r, i) && Moved(EntryAt(c, r, i), EntryAt(c', r, i)) then 1 else 0)
        + Transitions(cfg, c', ops[1..], r, i)
  }

  lemma {:induction false} RunSpendsWork(cfg: Config, c: Coordinator, ops: seq<Timed>, r: nat, i: nat)
    requires Coherent(c) && Bounded(cfg, c) && RunAllowed(cfg, c, ops)
    requires HasEntry(c, r, i)
    ensures Transitions(cfg, c, ops, r, i) <= Work(cfg, EntryAt(c, r, i))
    decreases |ops|
  {
    if ops != [] {
      var c' := Do(cfg, c, ops[0].op, ops[0].at);
      OpCoherent(cfg, c, ops[0].op, ops[0].at);
      OpBounded(cfg, c, ops[0].op, ops[0].at);
      OpEntryStep(cfg, c, ops[0].op, ops[0].at, r, i);
      RunSpendsWork(cfg, c', ops[1..], r, i);
    }
  }

  /** With a bound of M >= 1 attempts, a freshly scheduled market makes at most 3M + 1 transitions
      in any run, and no entry ever exceeds M attempts. */
  lemma RecoveryTerminates(cfg: Config, c: Coordinator, ops: seq<Timed>, r: nat, i: nat)
    requires cfg.maxAttempts >= 1
    requires Coherent(c) && Bounded(cfg, c) && RunAllowed(cfg, c, ops)
    requires HasEntry(c, r, i)
    requires EntryAt(c, r, i).phase.PendingRequest? && EntryAt(c, r, i).attempts == 0
    ensures Transitions(cfg, c, ops, r, i) <= 3 * cfg.maxAttempts + 1
    ensures HasEntry(RunOps(cfg, c, ops), r, i)
    ensures EntryAt(RunOps(cfg, c, ops), r, i).attempts <= cfg.maxAttempts
  {
    RunSpendsWork(cfg, c, ops, r, i);
    RunKeepsEntry(cfg, c, ops, r, i);
  }

  lemma {:induction false} RunKeepsEntry(cfg: Config, c: Coordinator, ops: seq<Timed>, r: nat, i: nat)
    requires Coherent(c) && Bounded(cfg, c) && RunAllowed(cfg, c, ops)
    requires HasEntry(c, r, i)
    ensures Coherent(RunOps(cfg, c, ops)) && Bounded(cfg, RunOps(cfg, c, ops))
    ensures HasEntry(RunOps(cfg, c, ops), r, i)
    ensures EntryAt(RunOps(cfg, c, ops), r, i).market == EntryAt(c, r, i).market
    decreases |ops|
  {
    if ops != [] {
      OpCoherent(cfg, c, ops[0].op, ops[0].at);
      OpBounded(cfg, c, ops[0].op, ops[0].at);
      OpEntryStep(cfg, c, ops[0].op, ops[0].at, r, i);
      RunKeepsEntry(cfg, Do(cfg, c, ops[0].op, ops[0].at), ops[1..], r, i);
    }
  }
}
