/** The market-data path as a whole: the router thread and a shard, joined by the shard's queue. What
    the router took in decides, at every moment of every run, what the shard's books are. */
module Pipeline {
  import opened Wrappers
  import opened MarketData
  import opened Book
  import opened Event
  import opened Shard
  import opened ShardTracking
  import opened ShardPublication
  import opened EndToEnd
  import R = Router
  import RS = RouterStops

  // --------------------------------------------------------- from router to book

  /** What is known of market (e, i) of shard `j` after one more input of the router, given what
      that input contributed. */
  function AfterInput(scale: Scale, r: Reference, m: Message, c: R.Contribution, f: Frames, j: nat, e: nat, i: nat)
    : Reference
  {
    match m
    case Frame(h) =>
      if !(IsBook(h.kind) && h.shard == j && h.eventIndex == e && h.marketIndex == i) then r
      else if c == R.ToShard(j, m) && f.content(h).GoodFrame? && f.content(h).parsed.BookUpdate?
      then Follow(scale, r, f.content(h).parsed.event)
      else Unknown
    case MarketBarrier(b) => if b.shard == j && b.eventIndex == e && b.marketIndex == i then Unknown else r
    case Subscription(_) => Unknown
  }

  /** The replay of the router's own inputs: a frame that was lost on the way leaves nothing known. */
  function ReplayInputs(scale: Scale, ms: seq<Message>, cs: seq<R.Contribution>, f: Frames, j: nat, e: nat, i: nat)
    : Reference
    requires |ms| == |cs|
  {
    if ms == [] then Unknown
    else
      var n := |ms| - 1;
      AfterInput(scale, ReplayInputs(scale, ms[..n], cs[..n], f, j, e, i), ms[n], cs[n], f, j, e, i)
  }

  /** Replaying what a shard was given is replaying what the router took in. */
  lemma {:induction false} SameReplay(scale: Scale, ms: seq<Message>, cs: seq<R.Contribution>, f: Frames, j: nat,
                                      e: nat, i: nat)
    requires |ms| == |cs| && forall k :: 0 <= k < |ms| ==> R.Allowed(ms[k], cs[k])
    ensures Replay(scale, R.Project(cs, j), f, e, i) == ReplayInputs(scale, ms, cs, f, j, e, i)
  {
    if ms != [] {
      var n := |ms| - 1;
      SameReplay(scale, ms[..n], cs[..n], f, j, e, i);
      assert R.Allowed(ms[n], cs[n]);
      OneInput(scale, R.Project(cs[..n], j), ms[n], cs[n], f, j, e, i);
    }
  }

  lemma OneInput(scale: Scale, before: seq<Message>, m: Message, c: R.Contribution, f: Frames, j: nat, e: nat, i: nat)
    requires R.Allowed(m, c)
    ensures Replay(scale, before + R.Part(c, j), f, e, i) ==
            AfterInput(scale, Replay(scale, before, f, e, i), m, c, f, j, e, i)
  {
    hide Replay, Follow;
    match c
    case Nothing => assert before + [] == before;
    case ToShard(shard, x) =>
      if shard == j { ReplayNext(scale, before, x, f, e, i); } else { assert before + [] == before; }
    case ToAll(b) => ReplayNext(scale, before, Subscription(b), f, e, i);
  }

  /** Whatever prefix of its queue a shard has popped, it is what some number of inputs contribute. */
  lemma {:induction false} ReachedSomeInput(cs: seq<R.Contribution>, j: nat, n: nat) returns (k: nat)
    requires n <= |R.Project(cs, j)|
    ensures k <= |cs| && R.Project(cs[..k], j) == R.Project(cs, j)[..n]
  {
    if n == |R.Project(cs, j)| {
      k := |cs|;
      assert cs[..k] == cs;
    } else {
      assert cs != [];
      var last := |cs| - 1;
      assert |R.Part(cs[last], j)| <= 1;
      k := ReachedSomeInput(cs[..last], j, n);
      assert cs[..last][..k] == cs[..k];
    }
  }

  lemma {:induction false} ProjectAppend(u: seq<R.Contribution>, v: seq<R.Contribution>, j: nat)
    ensures R.Project(u + v, j) == R.Project(u, j) + R.Project(v, j)
  {
    if v == [] {
      assert u + v == u;
    } else {
      var n := |v| - 1;
      assert (u + v)[..|u + v| - 1] == u + v[..n];
      ProjectAppend(u, v[..n], j);
    }
  }

  /** A contiguous part of a shard's queue is what a stretch of inputs contributes. */
  lemma Stretch(given: seq<R.Contribution>, queue: seq<Message>, owed: seq<Message>, j: nat, x: nat, y: nat)
    returns (a: nat, k: nat)
    requires queue + owed == R.Project(given, j) && x <= y <= |queue|
    ensures a <= k <= |given| && R.Project(given[..a], j) == queue[..x] && R.Project(given[..k], j) == queue[..y]
    ensures R.Project(given[a..k], j) == queue[x..y]
  {
    hide R.Project;
    k := ReachedSomeInput(given, j, y);
    assert (queue + owed)[..y] == queue[..y];
    a := ReachedSomeInput(given[..k], j, x);
    assert queue[..y][..x] == queue[..x];
    assert given[..k][..a] == given[..a] && given[..a] + given[a..k] == given[..k];
    ProjectAppend(given[..a], given[a..k], j);
    assert queue[..y] == queue[..x] + queue[x..y];
  }

  // ---------------------------------------------------------------- the two threads

  // The router, one shard, and how much of its queue that shard has popped, now and when its
  // universe was installed.
  datatype Joint = Joint(router: R.RouterState, shard: ShardState, base: nat, popped: nat)

  // Everything outside: the answers of all queues, the wiring and the frames.
  datatype World = World(routerAnswers: R.Answers, wiring: R.Wiring, shardAnswers: Answers, frames: Frames)

  // `sees` is false when the consumer's load does not yet show what the router pushed.
  datatype JointStep = RouterTurns(input: Option<Message>) | ShardPumps(sees: bool) | ShardObeys(command: Command)

  function Offer(x: Joint, sees: bool): Option<Message> {
    if sees && x.shard.shard < |x.router.shards| && x.popped < |x.router.shards[x.shard.shard]| then
      Some(x.router.shards[x.shard.shard][x.popped])
    else None
  }

  /** The pump gets as far as its queue. */
  predicate PopsNow(s: ShardState, q: Answers) { FlushStatus(s, q).1 && Pumps(FlushStatus(s, q).0.run) }

  function JointNext(x: Joint, w: World, st: JointStep): Joint {
    match st
    case RouterTurns(input) => x.(router := R.Turn(x.router, w.routerAnswers, w.wiring, input))
    case ShardPumps(sees) =>
      var m := Offer(x, sees);
      x.(shard := StepOf(x.shard, w.shardAnswers, w.frames, Pumped(m)),
         popped := if m.Some? && PopsNow(x.shard, w.shardAnswers) then x.popped + 1 else x.popped)
    case ShardObeys(c) =>
      var s := StepOf(x.shard, w.shardAnswers, w.frames, Obeyed(c));
      x.(shard := s, base := if s.seen == [] then x.popped else x.base)
  }

  function StartJoint(n: nat, shard: nat): Joint { Joint(R.InitialRouter(n), InitialShard(shard), 0, 0) }

  predicate JointAdmissible(st: JointStep) { st.ShardObeys? ==> Admissible(Obeyed(st.command)) }

  function JointRun(x: Joint, w: World, steps: seq<JointStep>): Joint
    decreases |steps|
  {
    if steps == [] then x else JointRun(JointNext(x, w, steps[0]), w, steps[1..])
  }

  ghost predicate JointInv(x: Joint, w: World) {
    && RS.StopInv(x.router) && ShardInv(x.shard, w.frames) && x.shard.shard < |x.router.shards|
    && x.base <= x.popped <= |x.router.shards[x.shard.shard]|
    && x.shard.seen == x.router.shards[x.shard.shard][x.base..x.popped]
  }

  /** A pump sees exactly one message more, if it pops one. */
  lemma PumpSees(s: ShardState, q: Answers, f: Frames, m: Option<Message>)
    ensures StepOf(s, q, f, Pumped(m)).seen == s.seen + if m.Some? && PopsNow(s, q) then [m.value] else []
  {
    hide Dispatch;
  }

  lemma ObeySees(s: ShardState, q: Answers, f: Frames, c: Command)
    ensures StepOf(s, q, f, Obeyed(c)).seen == s.seen || StepOf(s, q, f, Obeyed(c)).seen == []
  {
  }

  lemma JointStepInv(x: Joint, w: World, st: JointStep)
    requires JointInv(x, w) && Sensible(w.frames) && JointAdmissible(st)
    ensures JointInv(JointNext(x, w, st), w)
  {
    hide RS.StopInv, ShardInv, StepOf, Sensible, Admissible, R.Turn, PopsNow;
    var j := x.shard.shard;
    match st
    case RouterTurns(input) =>
      RS.TurnStopInv(x.router, w.routerAnswers, w.wiring, input);
      RS.TurnGrows(x.router, w.routerAnswers, w.wiring, input);
      var queue := R.Turn(x.router, w.routerAnswers, w.wiring, input).shards[j];
      assert x.router.shards[j] <= queue;
      assert queue[x.base..x.popped] == x.router.shards[j][x.base..x.popped];
    case ShardPumps(sees) =>
      var m := Offer(x, sees);
      assert Admissible(Pumped(m)) by { PumpAdmissible(m); }
      ShardStepInv(x.shard, w.shardAnswers, w.frames, Pumped(m));
      StepKeepsShard(x.shard, w.shardAnswers, w.frames, Pumped(m));
      PumpSees(x.shard, w.shardAnswers, w.frames, m);
    case ShardObeys(c) =>
      ShardStepInv(x.shard, w.shardAnswers, w.frames, Obeyed(c));
      StepKeepsShard(x.shard, w.shardAnswers, w.frames, Obeyed(c));
      ObeySees(x.shard, w.shardAnswers, w.frames, c);
  }

  lemma PumpAdmissible(m: Option<Message>)
    ensures Admissible(Pumped(m))
  {
  }

  lemma {:induction false} JointRunInv(x: Joint, w: World, steps: seq<JointStep>)
    requires JointInv(x, w) && Sensible(w.frames) && forall i :: 0 <= i < |steps| ==> JointAdmissible(steps[i])
    ensures JointInv(JointRun(x, w, steps), w)
    decreases |steps|
  {
    hide JointInv, JointNext, Sensible, JointAdmissible;
    if steps != [] {
      JointStepInv(x, w, steps[0]);
      JointRunInv(JointNext(x, w, steps[0]), w, steps[1..]);
    }
  }

  lemma StartInv(n: nat, shard: nat, w: World)
    requires shard < n
    ensures JointInv(StartJoint(n, shard), w)
  {
    hide RS.StopInv, ShardInv;
    RS.InitialStopInv(n);
    InitialShardInv(shard, w.frames);
  }

  // --------------------------------------------------------------------- loss safety

  /** The shard has reached exactly what inputs `a` to `k` of the router contribute to it since its
      universe was installed, and each of them contributes itself or a barrier in its place. */
  predicate Covers(x: Joint, a: nat, k: nat) {
    && a <= k <= |x.router.given| == |x.router.inputs|
    && x.shard.seen == R.Project(x.router.given[a..k], x.shard.shard)
    && forall i :: a <= i < k ==> R.Allowed(x.router.inputs[i], x.router.given[i])
  }

  /** The inputs that were reported in full: all, or all but the last. */
  lemma Reported(r: R.RouterState, j: nat) returns (n: nat)
    requires RS.EndsWell(r) && j < |r.shards|
    ensures n <= |r.given| && r.shards[j] == R.Project(r.given[..n], j)
    ensures forall i :: 0 <= i < n ==> R.Allowed(r.inputs[i], r.given[i])
    ensures n == |r.given|
            || (n == |r.given| - 1 && !(r.shards[j] == R.Project(r.given, j) && R.Allowed(r.inputs[n], r.given[n])))
  {
    n := |r.given|;
    assert r.given[..n] == r.given;
    assert RS.Reached(r, j);
    if r.given != [] && !(r.shards[j] == R.Project(r.given, j) && R.Allowed(r.inputs[n - 1], r.given[n - 1])) {
      n := n - 1;
      assert RS.ButLast(r.given) == r.given[..n];
      assert R.Part(R.Nothing, j) == [];
    }
  }

  lemma CoverExists(x: Joint, w: World) returns (a: nat, k: nat)
    requires JointInv(x, w)
    ensures Covers(x, a, k)
    ensures R.Project(x.router.given[..k], x.shard.shard) == x.router.shards[x.shard.shard][..x.popped]
  {
    hide ShardInv, R.Project;
    var r, j := x.router, x.shard.shard;
    var n := Reported(r, j);
    var reported := r.given[..n];
    assert r.shards[j] + [] == R.Project(reported, j);
    a, k := Stretch(reported, r.shards[j], [], j, x.base, x.popped);
    assert reported[a..k] == r.given[a..k] && reported[..k] == r.given[..k];
  }

  /** End to end: each book of a live shard is usable exactly when the replay of the inputs the shard
      has reached is known, and then holds the last snapshot plus every later delta the router took in. */
  lemma LossSafety(x: Joint, w: World, a: nat, k: nat, e: nat, i: nat)
    requires JointInv(x, w) && Covers(x, a, k) && Running(x.shard.run) && InRange(x.shard, e, i)
    ensures var b := BookAt(x.shard, e, i);
            var ref := ReplayInputs(b.scale, x.router.inputs[a..k], x.router.given[a..k], w.frames,
                                    x.shard.shard, e, i);
            && (Usable(b) <==> ref.Known?)
            && (Usable(b) ==> forall price: nat :: QuantityAt(b, Bid, price) == Resting(ref, Bid, price) &&
                                                   QuantityAt(b, Ask, price) == Resting(ref, Ask, price))
  {
    hide Replay, ReplayInputs, Coherent, RS.StopInv;
    var r := x.router;
    assert TracksAt(x.shard, w.frames, e, i);
    forall n | 0 <= n < k - a ensures R.Allowed(r.inputs[a..k][n], r.given[a..k][n]) {
      assert R.Allowed(r.inputs[a + n], r.given[a + n]);
    }
    SameReplay(BookAt(x.shard, e, i).scale, r.inputs[a..k], r.given[a..k], w.frames, x.shard.shard, e, i);
  }

  /** In every run of the two threads, faulted router or not, such inputs exist. */
  lemma EveryRunIsLossSafe(n: nat, shard: nat, w: World, steps: seq<JointStep>, e: nat, i: nat) returns (a: nat, k: nat)
    requires shard < n && Sensible(w.frames) && forall t :: 0 <= t < |steps| ==> JointAdmissible(steps[t])
    ensures var x := JointRun(StartJoint(n, shard), w, steps);
            && Covers(x, a, k)
            && (Running(x.shard.run) && InRange(x.shard, e, i) ==>
                  var b := BookAt(x.shard, e, i);
                  var ref := ReplayInputs(b.scale, x.router.inputs[a..k], x.router.given[a..k], w.frames,
                                          x.shard.shard, e, i);
                  && (Usable(b) <==> ref.Known?)
                  && (Usable(b) ==> forall price: nat :: QuantityAt(b, Bid, price) == Resting(ref, Bid, price) &&
                                                         QuantityAt(b, Ask, price) == Resting(ref, Ask, price)))
  {
    hide JointInv, JointRun, ReplayInputs, Covers;
    StartInv(n, shard, w);
    JointRunInv(StartJoint(n, shard), w, steps);
    var x := JointRun(StartJoint(n, shard), w, steps);
    a, k := CoverExists(x, w);
    if Running(x.shard.run) && InRange(x.shard, e, i) { LossSafety(x, w, a, k, e, i); }
  }

  // ------------------------------------------------------------------ until the next snapshot

  /** An input about market (e, i) of shard `j`. */
  predicate Concerns(m: Message, j: nat, e: nat, i: nat) {
    && Targets(m, e, i)
    && match m
       case Frame(h) => h.shard == j
       case MarketBarrier(b) => b.shard == j
       case Subscription(_) => true
  }

  /** An input whose book data is lost, on the way to the shard or in it. */
  predicate InputLoses(scale: Scale, r: Reference, m: Message, c: R.Contribution, f: Frames, j: nat, e: nat, i: nat) {
    Concerns(m, j, e, i) && (m.Frame? && c == R.ToShard(j, m) ==> Loses(scale, r, m, f, e, i))
  }

  /** An input that delivers a well-formed snapshot. */
  predicate InputRestores(scale: Scale, m: Message, c: R.Contribution, f: Frames, j: nat, e: nat, i: nat) {
    Concerns(m, j, e, i) && c == R.ToShard(j, m) && Restores(scale, m, f, e, i)
  }

  lemma {:induction false} UnknownUntilDelivered(scale: Scale, ms: seq<Message>, cs: seq<R.Contribution>, f: Frames,
                                                 j: nat, e: nat, i: nat, n: nat)
    requires n < |ms| == |cs|
    requires InputLoses(scale, ReplayInputs(scale, ms[..n], cs[..n], f, j, e, i), ms[n], cs[n], f, j, e, i)
    requires forall x :: n < x < |ms| ==> !InputRestores(scale, ms[x], cs[x], f, j, e, i)
    ensures ReplayInputs(scale, ms, cs, f, j, e, i).Unknown?
  {
    var last := |ms| - 1;
    if n < last {
      assert ms[..last][..n] == ms[..n] && cs[..last][..n] == cs[..n];
      UnknownUntilDelivered(scale, ms[..last], cs[..last], f, j, e, i, n);
    }
  }

  /** At every moment of every run: when an input the shard has reached lost book data of a market, by
      a full queue, a missing slot, a parse failure, a bad update or a barrier, the book stays unusable
      until a well-formed snapshot is delivered. */
  lemma LostStaysUnusable(x: Joint, w: World, a: nat, k: nat, n: nat, e: nat, i: nat)
    requires JointInv(x, w) && Covers(x, a, k) && a <= n < k && Running(x.shard.run) && InRange(x.shard, e, i)
    requires var scale := BookAt(x.shard, e, i).scale;
             var (ms, cs, j) := (x.router.inputs, x.router.given, x.shard.shard);
             && InputLoses(scale, ReplayInputs(scale, ms[a..n], cs[a..n], w.frames, j, e, i), ms[n], cs[n], w.frames,
                           j, e, i)
             && forall t :: n < t < k ==> !InputRestores(scale, ms[t], cs[t], w.frames, j, e, i)
    ensures !Usable(BookAt(x.shard, e, i))
  {
    hide ReplayInputs, JointInv, InputLoses, InputRestores;
    var (ms, cs) := (x.router.inputs, x.router.given);
    LossSafety(x, w, a, k, e, i);
    assert ms[a..k][..n - a] == ms[a..n] && cs[a..k][..n - a] == cs[a..n];
    UnknownUntilDelivered(BookAt(x.shard, e, i).scale, ms[a..k], cs[a..k], w.frames, x.shard.shard, e, i, n - a);
  }

  // ------------------------------------------------------------- the frame nobody hears of

  /** What a frame refused by the shard queue, the logger and the recycle queue does: the router stops
      and the shard, its queue and its books stay as they are. */
  lemma LeakIsSilent(x: Joint, w: World, h: Handle)
    requires !x.router.stopped && x.router.pending.None? && x.router.fact.None? && IsBook(h.kind)
    requires var (q, p) := (w.routerAnswers, x.router.pushes); !(q.accept(p) || q.accept(p + 1) || q.accept(p + 2))
    ensures var x' := JointNext(x, w, RouterTurns(Some(Frame(h))));
            && x'.router.stopped && x'.router.shards == x.router.shards && x'.shard == x.shard && x'.popped == x.popped
            && x'.base == x.base
            && x'.router.inputs == x.router.inputs + [Frame(h)] && x'.router.given[..|x.router.given|] == x.router.given
            && |x'.router.given| == |x.router.given| + 1 && !R.Allowed(Frame(h), x'.router.given[|x.router.given|])
  {
    hide R.RouteFrame;
    RS.UnreportedIff(x.router, w.routerAnswers, w.wiring, h);
  }

  /** A pump that pops nothing leaves the books alone. */
  lemma IdleKeepsBooks(s: ShardState, q: Answers, f: Frames)
    ensures StepOf(s, q, f, Pumped(None)).events == s.events && StepOf(s, q, f, Pumped(None)).shard == s.shard
  {
  }

  /** Nothing the two threads do afterwards, short of a command, tells the shard. */
  lemma {:induction false} LeakStaysSilent(x: Joint, w: World, steps: seq<JointStep>)
    requires x.router.stopped && x.shard.shard < |x.router.shards| && x.popped == |x.router.shards[x.shard.shard]|
    requires forall t :: 0 <= t < |steps| ==> !steps[t].ShardObeys?
    ensures JointRun(x, w, steps).shard.events == x.shard.events
    decreases |steps|
  {
    if steps != [] {
      IdleKeepsBooks(x.shard, w.shardAnswers, w.frames);
      LeakStaysSilent(JointNext(x, w, steps[0]), w, steps[1..]);
    }
  }

  // One event with one market, a snapshot frame of it and two delta frames.
  const OneMarket: EventState := EventState(5, SingleMarket, 0, [Market(9, 0, true, None, Blank(LinearCents))], 0)

  function FrameOf(kind: FrameKind, sequence: nat): Handle {
    Handle(1, 1, sequence, 9, 5, 0, 0, 0, SingleMarket, kind, 0, 0)
  }

  function EmptyBookOr(h: Handle): Content {
    if h.kind.SnapshotFrame? then GoodFrame(BookUpdate(Snapshot([], [])))
    else if h.kind.DeltaFrame? then GoodFrame(BookUpdate(Delta(Bid, 100, 5)))
    else NoFrame
  }

  // The first two pushes of the router go through; then the shard queue, the logger and the recycle
  // queue are full.
  const LeakyWorld: World :=
    World(R.Answers((k: nat) => k < 2), R.Wiring([true], true), Answers((k: nat) => true), Frames(EmptyBookOr))

  const SnapshotInput := Frame(FrameOf(SnapshotFrame, 1))
  const DeltaInput := Frame(FrameOf(DeltaFrame, 2))
  const LostInput := Frame(FrameOf(DeltaFrame, 3))

  // The snapshot is routed and applied, a delta is routed, the next one is lost, the shard pops on.
  const LeakyRun: seq<JointStep> := [
    ShardObeys(Install(1, 0, [OneMarket])), RouterTurns(Some(SnapshotInput)), ShardPumps(true),
    RouterTurns(Some(DeltaInput)), RouterTurns(Some(LostInput)), ShardPumps(true)]

  const Installed: ShardState := InitialShard(0).(run := Live, universe := 1, events := [OneMarket])

  const OnePushed: R.RouterState := R.InitialRouter(1).(
    pushes := 1, shards := [[SnapshotInput]], inputs := [SnapshotInput], given := [R.ToShard(0, SnapshotInput)])

  const TwoPushed: R.RouterState := OnePushed.(
    pushes := 2, shards := [[SnapshotInput, DeltaInput]], inputs := [SnapshotInput, DeltaInput],
    given := [R.ToShard(0, SnapshotInput), R.ToShard(0, DeltaInput)])

  lemma LeakyRunIsAdmissible()
    ensures Sensible(LeakyWorld.frames) && forall t :: 0 <= t < |LeakyRun| ==> JointAdmissible(LeakyRun[t])
  {
    BlankIsOk();
  }

  lemma BlankIsOk()
    ensures BookOk(Blank(LinearCents))
  {
    hide IndexByTick, TickByIndex;
  }

  lemma FirstInstall()
    ensures JointNext(StartJoint(1, 0), LeakyWorld, LeakyRun[0]) == Joint(R.InitialRouter(1), Installed, 0, 0)
  {
  }

  lemma FirstPush()
    ensures R.Turn(R.InitialRouter(1), LeakyWorld.routerAnswers, LeakyWorld.wiring, Some(SnapshotInput)) == OnePushed
  {
    assert R.InitialRouter(1).shards == [[]];
    assert [] + [SnapshotInput] == [SnapshotInput];
  }

  lemma SecondPush()
    ensures R.Turn(OnePushed, LeakyWorld.routerAnswers, LeakyWorld.wiring, Some(DeltaInput)) == TwoPushed
  {
    assert [SnapshotInput] + [DeltaInput] == [SnapshotInput, DeltaInput];
  }

  /** Popping a good frame of the only market keeps the shard live. */
  lemma GoodPop(s: ShardState, m: Message)
    requires s.run.Live? && s.universe == 1 && s.shard == 0 && s.pending.None? && m in {SnapshotInput, DeltaInput}
    requires |s.events| == 1 && EventShape(s.events[0])
    ensures var s' := StepOf(s, LeakyWorld.shardAnswers, LeakyWorld.frames, Pumped(Some(m)));
            && s'.run.Live? && s'.universe == 1 && s'.shard == 0 && s'.pending.None? && s'.seen == s.seen + [m]
            && |s'.events| == 1 && EventShape(s'.events[0])
  {
    hide ApplyFrame, ApplyBook, PublishAffected;
    assert m == SnapshotInput || m == DeltaInput;
    assert LeakyWorld.frames.content(m.handle).GoodFrame?;
    var p := LeakyWorld.frames.content(m.handle).parsed;
    ScaleKept(s.events[0].markets[0].book, p.event);
    ApplyFrameShape(s, LeakyWorld.shardAnswers, m.handle, p);
    NothingPends(s, LeakyWorld.shardAnswers, m.handle, p);
  }

  predicate EventShape(ev: EventState) {
    && ev.id == 5 && ev.topology.SingleMarket? && ev.index == 0 && |ev.markets| == 1
    && ev.markets[0].id == 9 && ev.markets[0].index == 0 && ev.markets[0].book.scale.LinearCents?
  }

  lemma ScaleKept(b: KalshiBook, e: BookEvent)
    ensures ApplyBook(b, e).0.scale == b.scale
  {
    hide Book.Install, IndexByTick, TickByIndex;
  }

  /** A frame that answers no recovery leaves no status pending. */
  lemma NothingPends(s: ShardState, q: Answers, h: Handle, p: Parsed)
    requires FrameTarget(s, h) && h.recovery == 0
    ensures ApplyFrame(s, q, h, p).pending == s.pending && ApplyFrame(s, q, h, p).universe == s.universe
  {
    hide ApplyEvent, PublishAffected, Publish;
    var (ev, r) := ApplyEvent(s.events[h.eventIndex], h.marketIndex, p);
    var s1 := WithEvent(s, h.eventIndex, ev);
    var m := EventUnavailable(h.event, h.market, ev.revision);
    PublishKeeps(s1, q, m);
    var s2 := if r.transition.BecameUnusable? then Publish(s1, q, m) else s1;
    AffectedKeeps(s2, q, h.eventIndex, h.marketIndex, r.becameUsable);
  }

  /** What the leaky run comes to: the router has stopped, the lost delta among its inputs, and the
      shard has popped everything it was given. */
  lemma LeakyRunEnds()
    ensures var x := JointRun(StartJoint(1, 0), LeakyWorld, LeakyRun);
            && x.router.stopped && x.router.shards == TwoPushed.shards
            && x.router.inputs == TwoPushed.inputs + [LostInput]
            && x.shard.shard == 0 && x.popped == 2 && x.shard.run.Live? && x.shard.seen == [SnapshotInput, DeltaInput]
            && |x.shard.events| == 1 && EventShape(x.shard.events[0])
  {
    hide StepOf, R.Turn, JointRun;
    var w := LeakyWorld;
    FirstInstall();
    var x1 := Joint(R.InitialRouter(1), Installed, 0, 0);
    FirstPush();
    var x2 := x1.(router := OnePushed);
    GoodPop(Installed, SnapshotInput);
    var s3 := StepOf(Installed, w.shardAnswers, w.frames, Pumped(Some(SnapshotInput)));
    var x3 := Joint(OnePushed, s3, 0, 1);
    SecondPush();
    var x4 := x3.(router := TwoPushed);
    LeakIsSilent(x4, w, LostInput.handle);
    var x5 := JointNext(x4, w, LeakyRun[4]);
    GoodPop(s3, DeltaInput);
    var x6 := JointNext(x5, w, LeakyRun[5]);
    assert x6.popped == 2 && x6.shard.seen == [SnapshotInput, DeltaInput];
    assert x2 == JointNext(x1, w, LeakyRun[1]);
    assert x3 == JointNext(x2, w, LeakyRun[2]);
    assert x4 == JointNext(x3, w, LeakyRun[3]);
    SixSteps(x1, x2, x3, x4, x5, x6);
  }

  lemma SixSteps(x1: Joint, x2: Joint, x3: Joint, x4: Joint, x5: Joint, x6: Joint)
    requires x1 == JointNext(StartJoint(1, 0), LeakyWorld, LeakyRun[0]) && x2 == JointNext(x1, LeakyWorld, LeakyRun[1])
    requires x3 == JointNext(x2, LeakyWorld, LeakyRun[2]) && x4 == JointNext(x3, LeakyWorld, LeakyRun[3])
    requires x5 == JointNext(x4, LeakyWorld, LeakyRun[4]) && x6 == JointNext(x5, LeakyWorld, LeakyRun[5])
    ensures JointRun(StartJoint(1, 0), LeakyWorld, LeakyRun) == x6
  {
    hide JointNext;
    var (r, w) := (LeakyRun, LeakyWorld);
    assert r[1..][1..] == r[2..] && r[2..][1..] == r[3..] && r[3..][1..] == r[4..] && r[4..][1..] == r[5..]
           && r[5..][1..] == [];
    assert JointRun(x5, w, r[5..]) == JointRun(x6, w, []) == x6;
    assert JointRun(x4, w, r[4..]) == JointRun(x5, w, r[5..]);
    assert JointRun(x3, w, r[3..]) == JointRun(x4, w, r[4..]);
    assert JointRun(x2, w, r[2..]) == JointRun(x3, w, r[3..]);
    assert JointRun(x1, w, r[1..]) == JointRun(x2, w, r[2..]);
  }

  /** What the shard has seen is good data. */
  lemma SeenIsKnown()
    ensures Replay(LinearCents, [SnapshotInput, DeltaInput], LeakyWorld.frames, 0, 0).Known?
  {
    ReplayNext(LinearCents, [], SnapshotInput, LeakyWorld.frames, 0, 0);
    assert [] + [SnapshotInput] == [SnapshotInput] && [SnapshotInput] + [DeltaInput] == [SnapshotInput, DeltaInput];
    ReplayNext(LinearCents, [SnapshotInput], DeltaInput, LeakyWorld.frames, 0, 0);
  }

  /** A run in which a delta is lost and the book stays usable: the router leaks the frame and stops,
      and the live shard is told nothing, whatever the two threads do next. */
  lemma LostDeltaLeavesBookUsable(steps: seq<JointStep>)
    requires forall t :: 0 <= t < |steps| ==> !steps[t].ShardObeys?
    ensures Sensible(LeakyWorld.frames) && forall t :: 0 <= t < |LeakyRun| ==> JointAdmissible(LeakyRun[t])
    ensures var x := JointRun(StartJoint(1, 0), LeakyWorld, LeakyRun);
            var later := JointRun(x, LeakyWorld, steps);
            && x.router.stopped && LostInput in x.router.inputs && Running(x.shard.run)
            && InRange(later.shard, 0, 0) && Usable(BookAt(later.shard, 0, 0))
  {
    hide JointNext, JointRun, Replay, ShardTracks;
    LeakyRunIsAdmissible();
    LeakyRunEnds();
    SeenIsKnown();
    var x := JointRun(StartJoint(1, 0), LeakyWorld, LeakyRun);
    StartInv(1, 0, LeakyWorld);
    JointRunInv(StartJoint(1, 0), LeakyWorld, LeakyRun);
    assert Usable(BookAt(x.shard, 0, 0)) by { KnownIsUsable(x.shard, LeakyWorld.frames, 0, 0); }
    LeakStaysSilent(x, LeakyWorld, steps);
  }

  lemma KnownIsUsable(s: ShardState, f: Frames, e: nat, i: nat)
    requires ShardInv(s, f) && Running(s.run) && InRange(s, e, i)
    requires Replay(BookAt(s, e, i).scale, s.seen, f, e, i).Known?
    ensures Usable(BookAt(s, e, i))
  {
    hide Replay, Coherent;
    assert TracksAt(s, f, e, i);
  }
}
