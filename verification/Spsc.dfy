/** The single-producer single-consumer ring (cpp/include/predex/utils/spsc.hpp)
    as a machine of atomic steps.

    One push is three steps (decide, construct, publish) and one pop is three steps
    (decide, move out and destroy, publish); the two threads interleave freely.  A load of
    the other thread's index is allowed to be stale: it returns any value of that index's
    modification order that is not older than what the same thread loaded before
    (read-read coherence, section 6.9.2.2 [intro.races] of ISO/IEC 14882:2020). */
module Spsc {
  import opened Wrappers
  import opened Bits

  datatype ProducerPc<T> = PIdle | PReady(item: T) | PWritten(item: T)
  datatype ConsumerPc<T> = CIdle | CReady | CTaken(item: T)

  /** What the queue object stores: 64-bit words and slots, a `None` slot being raw memory. */
  datatype Ring<T> = Ring(
    capacity: nat,
    tailWord: nat, headWord: nat,
    consumerHead: nat, consumerCachedTail: nat,
    producerTail: nat, producerCachedHead: nat,
    slots: seq<Option<T>>)

  /** What happened so far, in indices that never wrap. */
  datatype History<T> = History(
    pushed: seq<T>,          // published items, oldest first
    popped: seq<T>,          // items handed to the consumer, oldest first
    cachedHead: nat,         // the head value behind producerCachedHead
    seenHead: nat,           // newest head value the producer ever loaded
    cachedTail: nat)         // the tail value behind consumerCachedTail

  datatype Queue<T> = Queue(ring: Ring<T>, past: History<T>, producer: ProducerPc<T>, consumer: ConsumerPc<T>)
  {
    function Head(): nat { |past.popped| }
    function Tail(): nat { |past.pushed| }
  }

  /** The steps; `loaded` is the value an atomic load returns, when the step makes one. */
  datatype Step<T> =
    | PushDecide(item: T, loaded: nat)
    | PushConstruct
    | PushPublish
    | PopDecide(loaded: nat)
    | PopMove
    | PopPublish
    | ReadSize(loaded: nat)

  /** The constructor's test: a nonzero 64-bit capacity with a single bit set. */
  predicate GoodCapacity(capacity: nat) {
    0 < capacity < WORD && And(capacity, capacity - 1) == 0
  }

  function Init<T>(capacity: nat): Queue<T> {
    Queue(Ring(capacity, 0, 0, 0, 0, 0, 0, seq(capacity, _ => None)),
          History([], [], 0, 0, 0), PIdle, CIdle)
  }

  /** Slot of a word, computed with the mask the constructor stored. */
  function SlotOf<T>(r: Ring<T>, word: nat): nat
    requires r.capacity > 0
  {
    And(word, r.capacity - 1)
  }

  predicate Enabled<T>(q: Queue<T>, step: Step<T>) {
    match step
    case PushDecide(_, v) => q.producer.PIdle? && q.past.seenHead <= v <= q.Head()
    case PushConstruct => q.producer.PReady?
    case PushPublish => q.producer.PWritten?
    case PopDecide(v) => q.consumer.CIdle? && q.past.cachedTail <= v <= q.Tail()
    case PopMove => q.consumer.CReady?
    case PopPublish => q.consumer.CTaken?
    case ReadSize(v) => q.producer.PIdle? && q.past.seenHead <= v <= q.Head()
  }

  /** The first test of try_emplace: does the cached head already show a free slot? */
  predicate CacheShowsFull<T>(r: Ring<T>) {
    Sub64(r.producerTail, r.producerCachedHead) == r.capacity
  }

  predicate CacheShowsEmpty<T>(r: Ring<T>) {
    r.consumerHead == r.consumerCachedTail
  }

  /** try_emplace up to the decision: the refreshed cache, and whether the push goes ahead. */
  function DecidePush<T>(q: Queue<T>, item: T, v: nat): Queue<T> {
    if CacheShowsFull(q.ring) then
      var q' := q.(ring := q.ring.(producerCachedHead := v % WORD), past := q.past.(cachedHead := v, seenHead := v));
      if CacheShowsFull(q'.ring) then q' else q'.(producer := PReady(item))
    else
      q.(producer := PReady(item))
  }

  function DecidePop<T>(q: Queue<T>, v: nat): Queue<T> {
    if CacheShowsEmpty(q.ring) then
      var q' := q.(ring := q.ring.(consumerCachedTail := v % WORD), past := q.past.(cachedTail := v));
      if CacheShowsEmpty(q'.ring) then q' else q'.(consumer := CReady)
    else
      q.(consumer := CReady)
  }

  /** One atomic step.  Constructing into a slot or moving out of one needs the slot to exist. */
  function Apply<T>(q: Queue<T>, step: Step<T>): Queue<T>
    requires Enabled(q, step)
    requires q.ring.capacity > 0
    requires step.PushConstruct? ==> SlotOf(q.ring, q.ring.producerTail) < |q.ring.slots|
    requires step.PopMove? ==> SlotOf(q.ring, q.ring.consumerHead) < |q.ring.slots| &&
                               q.ring.slots[SlotOf(q.ring, q.ring.consumerHead)].Some?
  {
    var r := q.ring;
    match step
    case PushDecide(item, v) => DecidePush(q, item, v)
    case PushConstruct =>
      q.(ring := r.(slots := r.slots[SlotOf(r, r.producerTail) := Some(q.producer.item)]),
         producer := PWritten(q.producer.item))
    case PushPublish =>
      var next := Inc64(r.producerTail);
      q.(ring := r.(producerTail := next, tailWord := next),
         past := q.past.(pushed := q.past.pushed + [q.producer.item]),
         producer := PIdle)
    case PopDecide(v) => DecidePop(q, v)
    case PopMove =>
      var i := SlotOf(r, r.consumerHead);
      q.(ring := r.(slots := r.slots[i := None]), consumer := CTaken(r.slots[i].value))
    case PopPublish =>
      var next := Inc64(r.consumerHead);
      q.(ring := r.(consumerHead := next, headWord := next),
         past := q.past.(popped := q.past.popped + [q.consumer.item]),
         consumer := CIdle)
    case ReadSize(v) => q.(past := q.past.(seenHead := v))
  }

  /** producer_size(): the word difference of the producer's tail and the head it loads. */
  function SizeResult<T>(q: Queue<T>, v: nat): nat {
    Sub64(q.ring.producerTail, v % WORD)
  }

  // ---------------------------------------------------------------- invariant

  /** Index i holds a constructed object: published and not yet moved out, or just constructed. */
  predicate Live<T>(q: Queue<T>, i: nat) {
    || (q.Head() <= i < q.Tail() && !(i == q.Head() && q.consumer.CTaken?))
    || (i == q.Tail() && q.producer.PWritten?)
  }

  function ItemAt<T>(q: Queue<T>, i: nat): T
    requires Live(q, i)
  {
    if i < q.Tail() then q.past.pushed[i] else q.producer.item
  }

  ghost predicate SlotsHold<T>(q: Queue<T>)
    requires q.ring.capacity > 0
  {
    && |q.ring.slots| == q.ring.capacity
    && (forall i: nat :: Live(q, i) ==> q.ring.slots[i % q.ring.capacity] == Some(ItemAt(q, i)))
    && (forall s: nat :: s < q.ring.capacity && q.ring.slots[s].Some? ==>
          exists i: nat :: Live(q, i) && i % q.ring.capacity == s)
  }

  ghost predicate WordsMatch<T>(q: Queue<T>) {
    && q.ring.tailWord == q.ring.producerTail == q.Tail() % WORD
    && q.ring.headWord == q.ring.consumerHead == q.Head() % WORD
    && q.ring.producerCachedHead == q.past.cachedHead % WORD
    && q.ring.consumerCachedTail == q.past.cachedTail % WORD
  }

  ghost predicate IndicesOrdered<T>(q: Queue<T>) {
    && q.past.cachedHead <= q.past.seenHead <= q.Head() <= q.past.cachedTail <= q.Tail()
    && q.Tail() <= q.past.cachedHead + q.ring.capacity
    && (!q.producer.PIdle? ==> q.Tail() < q.past.cachedHead + q.ring.capacity)
    && (!q.consumer.CIdle? ==> q.Head() < q.past.cachedTail)
    && (q.consumer.CTaken? ==> q.consumer.item == q.past.pushed[q.Head()])
  }

  ghost predicate Inv<T>(q: Queue<T>) {
    && GoodCapacity(q.ring.capacity)
    && IndicesOrdered(q)
    && q.past.popped <= q.past.pushed
    && WordsMatch(q)
    && SlotsHold(q)
  }

  lemma CapacityFacts(capacity: nat)
    requires GoodCapacity(capacity)
    ensures 2 * capacity <= WORD
    ensures forall x: nat {:trigger x % capacity} :: (x % WORD) % capacity == x % capacity
    ensures forall x: nat {:trigger And(x, capacity - 1)} :: And(x, capacity - 1) == x % capacity
  {
    PowerOfTwoTest(capacity);
    WordIsPowerOfTwo();
    var k: nat :| capacity == Pow2(k);
    PowersMonotone(k, 64);
    PowersDivide(k, 64);
    var m := Pow2(64 - k);
    assert k < 64;
    assert m >= 2;
    MulMono(2, m, capacity);
    forall x: nat ensures (x % WORD) % capacity == x % capacity {
      ModOfMultiple(x, capacity, m);
    }
    forall x: nat ensures And(x, capacity - 1) == x % capacity {
      MaskIsRemainder(x, k);
    }
  }

  lemma InitInv<T>(capacity: nat)
    requires GoodCapacity(capacity)
    ensures Inv(Init<T>(capacity))
  {
  }

  lemma SlotFacts(capacity: nat, index: nat)
    requires GoodCapacity(capacity)
    ensures 2 * capacity <= WORD
    ensures And(index % WORD, capacity - 1) == index % capacity
  {
    CapacityFacts(capacity);
    var word := index % WORD;
    assert And(word, capacity - 1) == word % capacity;
    assert index % capacity == word % capacity;
  }

  lemma WordsEqual(t: nat, h: nat)
    requires h <= t < h + WORD
    ensures h % WORD == t % WORD <==> h == t
  {
    WordDistance(t, h);
  }

  /** The words a step compares and the slots it touches, in unwrapped indices. */
  lemma StepFacts<T>(q: Queue<T>)
    requires Inv(q)
    ensures 2 * q.ring.capacity <= WORD
    ensures SlotOf(q.ring, q.ring.producerTail) == q.Tail() % q.ring.capacity
    ensures SlotOf(q.ring, q.ring.consumerHead) == q.Head() % q.ring.capacity
    ensures CacheShowsFull(q.ring) <==> q.Tail() == q.past.cachedHead + q.ring.capacity
    ensures CacheShowsEmpty(q.ring) <==> q.Head() == q.past.cachedTail
    ensures Inc64(q.ring.producerTail) == (q.Tail() + 1) % WORD
    ensures Inc64(q.ring.consumerHead) == (q.Head() + 1) % WORD
  {
    SlotFacts(q.ring.capacity, q.Tail());
    SlotFacts(q.ring.capacity, q.Head());
    WordDistance(q.Tail(), q.past.cachedHead);
    WordsEqual(q.past.cachedTail, q.Head());
    WordSuccessor(q.Tail());
    WordSuccessor(q.Head());
  }

  /** The slot about to be constructed is raw memory, so it is not the slot being moved out of. */
  lemma TailSlotIsRaw<T>(q: Queue<T>)
    requires Inv(q) && q.producer.PReady?
    ensures q.Tail() % q.ring.capacity < |q.ring.slots|
    ensures q.ring.slots[q.Tail() % q.ring.capacity].None?
    ensures q.Head() < q.Tail() ==> q.Tail() % q.ring.capacity != q.Head() % q.ring.capacity
  {
    var c := q.ring.capacity;
    forall i: nat | Live(q, i) ensures i % c != q.Tail() % c {
      DistinctResidues(i, q.Tail(), c);
    }
    if q.Head() < q.Tail() { DistinctResidues(q.Head(), q.Tail(), c); }
  }

  lemma HeadSlotIsFull<T>(q: Queue<T>)
    requires Inv(q) && q.consumer.CReady?
    ensures q.Head() % q.ring.capacity < |q.ring.slots|
    ensures q.ring.slots[q.Head() % q.ring.capacity] == Some(q.past.pushed[q.Head()])
  {
    assert Live(q, q.Head());
  }

  /** A step is well defined in every reachable state. */
  ghost predicate CanApply<T>(q: Queue<T>, step: Step<T>) {
    && Enabled(q, step)
    && q.ring.capacity > 0
    && (step.PushConstruct? ==> SlotOf(q.ring, q.ring.producerTail) < |q.ring.slots|)
    && (step.PopMove? ==> SlotOf(q.ring, q.ring.consumerHead) < |q.ring.slots| &&
                          q.ring.slots[SlotOf(q.ring, q.ring.consumerHead)].Some?)
  }

  lemma StepDefined<T>(q: Queue<T>, step: Step<T>)
    requires Inv(q) && Enabled(q, step)
    ensures CanApply(q, step)
  {
    StepFacts(q);
    if step.PushConstruct? { TailSlotIsRaw(q); }
    if step.PopMove? { HeadSlotIsFull(q); }
  }

  lemma DecidePushInv<T>(q: Queue<T>, item: T, v: nat)
    requires Inv(q) && Enabled(q, PushDecide(item, v))
    ensures Inv(DecidePush(q, item, v))
  {
    StepFacts(q);
    var q' := DecidePush(q, item, v);
    WordDistance(q.Tail(), v);
    forall i: nat ensures Live(q, i) == Live(q', i) {}
    assert SlotsHold(q');
  }

  lemma DecidePopInv<T>(q: Queue<T>, v: nat)
    requires Inv(q) && Enabled(q, PopDecide(v))
    ensures Inv(DecidePop(q, v))
  {
    StepFacts(q);
    var q' := DecidePop(q, v);
    WordsEqual(v, q.Head());
    forall i: nat ensures Live(q, i) == Live(q', i) {}
    assert SlotsHold(q');
  }

  lemma ConstructInv<T>(q: Queue<T>)
    requires Inv(q) && q.producer.PReady?
    requires CanApply(q, PushConstruct)
    ensures Inv(Apply(q, PushConstruct))
  {
    StepFacts(q);
    TailSlotIsRaw(q);
    var q' := Apply(q, PushConstruct);
    var c := q.ring.capacity;
    forall i: nat | Live(q', i) ensures q'.ring.slots[i % c] == Some(ItemAt(q', i)) {
      if i != q.Tail() { assert Live(q, i); }
    }
    forall s: nat | s < c && q'.ring.slots[s].Some?
      ensures exists i: nat :: Live(q', i) && i % c == s
    {
      if s == q.Tail() % c {
        assert Live(q', q.Tail());
      } else {
        assert q.ring.slots[s].Some?;
        var i: nat :| Live(q, i) && i % c == s;
        assert Live(q', i);
      }
    }
  }

  lemma MoveInv<T>(q: Queue<T>)
    requires Inv(q) && q.consumer.CReady?
    requires CanApply(q, PopMove)
    ensures Inv(Apply(q, PopMove))
  {
    StepFacts(q);
    HeadSlotIsFull(q);
    var q' := Apply(q, PopMove);
    var c := q.ring.capacity;
    forall i: nat | Live(q', i) ensures q'.ring.slots[i % c] == Some(ItemAt(q', i)) {
      assert Live(q, i);
      DistinctResidues(q.Head(), i, c);
    }
    forall s: nat | s < c && q'.ring.slots[s].Some?
      ensures exists i: nat :: Live(q', i) && i % c == s
    {
      assert q.ring.slots[s].Some?;
      var i: nat :| Live(q, i) && i % c == s;
      assert Live(q', i);
    }
  }

  lemma PublishInv<T>(q: Queue<T>, step: Step<T>)
    requires Inv(q) && (step.PushPublish? || step.PopPublish? || step.ReadSize?)
    requires CanApply(q, step)
    ensures Inv(Apply(q, step))
  {
    StepFacts(q);
    var q' := Apply(q, step);
    forall i: nat ensures Live(q, i) == Live(q', i) {}
    forall i: nat | Live(q, i) ensures ItemAt(q, i) == ItemAt(q', i) {}
    assert SlotsHold(q');
    assert IndicesOrdered(q');
  }

  /** Every atomic step of either thread keeps the invariant. */
  lemma StepInv<T>(q: Queue<T>, step: Step<T>)
    requires Inv(q) && Enabled(q, step)
    ensures CanApply(q, step)
    ensures Inv(Apply(q, step))
  {
    StepDefined(q, step);
    match step
    case PushDecide(item, v) => DecidePushInv(q, item, v);
    case PushConstruct => ConstructInv(q);
    case PushPublish => PublishInv(q, step);
    case PopDecide(v) => DecidePopInv(q, v);
    case PopMove => MoveInv(q);
    case PopPublish => PublishInv(q, step);
    case ReadSize(_) => PublishInv(q, step);
  }

  // ------------------------------------------------------------- refinement

  /** The specification: a bounded first-in first-out queue. */
  function Fifo<T>(q: Queue<T>): seq<T>
    requires q.past.popped <= q.past.pushed
  {
    q.past.pushed[|q.past.popped|..]
  }

  /** Each step is an enqueue, a dequeue of the oldest item, or invisible. */
  lemma StepRefinesFifo<T>(q: Queue<T>, step: Step<T>)
    requires Inv(q) && Enabled(q, step)
    ensures CanApply(q, step)
    ensures Inv(Apply(q, step))
    ensures |Fifo(q)| <= q.ring.capacity
    ensures step.PushPublish? ==>
              |Fifo(q)| < q.ring.capacity && Fifo(Apply(q, step)) == Fifo(q) + [q.producer.item]
    ensures step.PopPublish? ==>
              Fifo(q) != [] && q.consumer.item == Fifo(q)[0] && Fifo(Apply(q, step)) == Fifo(q)[1..]
    ensures !step.PushPublish? && !step.PopPublish? ==> Fifo(Apply(q, step)) == Fifo(q)
  {
    StepInv(q, step);
  }

  /** No unordered conflicting access: whenever a slot is constructed, the producer has acquired
      a head newer than the last pop of that slot; whenever a slot is moved out of, the consumer
      has acquired a tail newer than the push that filled it; and if both are about to touch
      memory they touch different slots. */
  lemma AccessesOrdered<T>(q: Queue<T>)
    requires Inv(q)
    ensures q.producer.PReady? ==> q.Tail() - q.ring.capacity < q.past.seenHead
    ensures q.consumer.CReady? ==> q.Head() < q.past.cachedTail
    ensures q.producer.PReady? && q.consumer.CReady? ==>
              SlotOf(q.ring, q.ring.producerTail) != SlotOf(q.ring, q.ring.consumerHead)
  {
    StepFacts(q);
    if q.producer.PReady? && q.consumer.CReady? { TailSlotIsRaw(q); }
  }

  /** try_emplace gives up exactly when both its cached and its loaded head leave no room; with
      an up-to-date load that is exactly when the queue is full. */
  lemma PushRefusedIffFull<T>(q: Queue<T>, item: T, v: nat)
    requires Inv(q) && Enabled(q, PushDecide(item, v))
    ensures DecidePush(q, item, v).producer.PIdle? <==>
              q.Tail() - q.past.cachedHead == q.ring.capacity && q.Tail() - v == q.ring.capacity
    ensures v == q.Head() ==>
              (DecidePush(q, item, v).producer.PIdle? <==> |Fifo(q)| == q.ring.capacity)
  {
    StepFacts(q);
    WordDistance(q.Tail(), v);
  }

  lemma PopRefusedIffEmpty<T>(q: Queue<T>, v: nat)
    requires Inv(q) && Enabled(q, PopDecide(v))
    ensures DecidePop(q, v).consumer.CIdle? <==> q.Head() == v
    ensures v == q.Tail() ==> (DecidePop(q, v).consumer.CIdle? <==> Fifo(q) == [])
  {
    StepFacts(q);
    WordsEqual(v, q.Head());
  }

  /** producer_size() is an exact count for the head it loaded and never exceeds the capacity. */
  lemma SizeIsExact<T>(q: Queue<T>, v: nat)
    requires Inv(q) && Enabled(q, ReadSize(v))
    ensures SizeResult(q, v) == q.Tail() - v
    ensures |Fifo(q)| <= SizeResult(q, v) <= q.ring.capacity
  {
    StepFacts(q);
    WordDistance(q.Tail(), v);
  }

  // ------------------------------------------------------------------- runs

  ghost predicate ValidRun<T>(q: Queue<T>, steps: seq<Step<T>>)
    decreases |steps|
  {
    steps != [] ==> CanApply(q, steps[0]) && ValidRun(Apply(q, steps[0]), steps[1..])
  }

  ghost function Run<T>(q: Queue<T>, steps: seq<Step<T>>): Queue<T>
    requires ValidRun(q, steps)
    decreases |steps|
  {
    if steps == [] then q else Run(Apply(q, steps[0]), steps[1..])
  }

  lemma {:induction false} RunInv<T>(q: Queue<T>, steps: seq<Step<T>>)
    requires Inv(q) && ValidRun(q, steps)
    ensures Inv(Run(q, steps))
    ensures Run(q, steps).ring.capacity == q.ring.capacity
    decreases |steps|
  {
    if steps != [] {
      StepInv(q, steps[0]);
      RunInv(Apply(q, steps[0]), steps[1..]);
    }
  }

  /** Whatever the interleaving, and however stale the loads, the consumer receives a prefix of
      what the producer published, in order, and at most `capacity` items are in between. */
  lemma EveryInterleavingIsFifo<T>(capacity: nat, steps: seq<Step<T>>)
    requires GoodCapacity(capacity)
    requires ValidRun(Init(capacity), steps)
    ensures var q := Run(Init(capacity), steps);
            q.past.popped <= q.past.pushed && |q.past.pushed| - |q.past.popped| <= capacity
  {
    InitInv<T>(capacity);
    RunInv(Init(capacity), steps);
  }

  /** Push decisions in a run. */
  function PushCount<T>(steps: seq<Step<T>>): nat {
    if steps == [] then 0 else (if steps[0].PushDecide? then 1 else 0) + PushCount(steps[1..])
  }

  /** No push decision of the run is a refusal. */
  ghost predicate NoneRefused<T>(q: Queue<T>, steps: seq<Step<T>>)
    requires ValidRun(q, steps)
    decreases |steps|
  {
    steps != [] ==>
      && (steps[0].PushDecide? ==> Apply(q, steps[0]).producer.PReady?)
      && NoneRefused(Apply(q, steps[0]), steps[1..])
  }

  /** Pushes the producer can still start, judged by the newest head it has seen. */
  function Reserved<T>(q: Queue<T>): int {
    q.ring.capacity + q.past.seenHead - q.Tail() - (if q.producer.PIdle? then 0 else 1)
  }

  lemma ReservedStep<T>(q: Queue<T>, step: Step<T>)
    requires Inv(q) && Enabled(q, step)
    requires step.PushDecide? ==> Reserved(q) >= 1
    ensures CanApply(q, step)
    ensures Inv(Apply(q, step))
    ensures step.PushDecide? ==> Apply(q, step).producer.PReady?
    ensures Reserved(Apply(q, step)) >= Reserved(q) - (if step.PushDecide? then 1 else 0)
  {
    StepInv(q, step);
    if step.PushDecide? {
      PushRefusedIffFull(q, step.item, step.loaded);
    }
  }

  /** Room seen is room kept: the next Reserved(q) pushes succeed whatever the consumer does. */
  lemma {:induction false} ReservedPushesSucceed<T>(q: Queue<T>, steps: seq<Step<T>>)
    requires Inv(q) && ValidRun(q, steps)
    requires PushCount(steps) <= Reserved(q)
    ensures NoneRefused(q, steps)
    decreases |steps|
  {
    if steps != [] {
      ReservedStep(q, steps[0]);
      ReservedPushesSucceed(Apply(q, steps[0]), steps[1..]);
    }
  }

  /** The admission tests of the OMS rely on this: after producer_size() leaves n free slots, no
      run with at most n pushes has one refused. */
  lemma SizeCheckReserves<T>(q: Queue<T>, v: nat, n: nat, steps: seq<Step<T>>)
    requires Inv(q) && Enabled(q, ReadSize(v))
    requires q.ring.capacity - SizeResult(q, v) >= n
    requires PushCount(steps) <= n
    requires ValidRun(q.(past := q.past.(seenHead := v)), steps)
    ensures NoneRefused(q.(past := q.past.(seenHead := v)), steps)
  {
    SizeIsExact(q, v);
    StepInv(q, ReadSize(v));
    ReservedPushesSucceed(Apply(q, ReadSize(v)), steps);
  }
}
