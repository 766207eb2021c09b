/** The router as the mutable object the source keeps: each method runs one operation of module
    Router in place. */
module RouterObject {
  import opened Wrappers
  import opened MarketData
  import opened Router

  class MarketRouter {
    const wiring: Wiring
    const answers: Answers
    var pending: Option<Pending>
    var fact: Option<SubscriptionBarrier>
    var nextIncident: nat
    var pushes: nat
    var shards: seq<seq<Message>>
    var facts: seq<SubscriptionBarrier>
    var logger: seq<Handle>
    var recycled: seq<Handle>
    var leaked: seq<Handle>
    var stopped: bool
    ghost var inputs: seq<Message>
    ghost var given: seq<Contribution>

    ghost function View(): RouterState
      reads this
    {
      RouterState(pending, fact, nextIncident, pushes, shards, facts, logger, recycled, leaked, stopped, inputs, given)
    }

    ghost predicate Valid()
      reads this
    {
      RouterInv(View())
    }

    constructor (wiring: Wiring, answers: Answers)
      ensures Valid() && View() == InitialRouter(|wiring.present|) && this.wiring == wiring && this.answers == answers
    {
      this.wiring := wiring;
      this.answers := answers;
      pending, fact, nextIncident, pushes := None, None, 1, 0;
      shards := seq(|wiring.present|, i => []);
      facts, logger, recycled, leaked := [], [], [], [];
      stopped := false;
      inputs, given := [], [];
      new;
      InitialInv(|wiring.present|);
    }

    method PushToShard(shard: nat, m: Message) returns (ok: bool)
      requires shard < |shards|
      modifies this`pushes, this`shards
      ensures (View(), ok) == PushShard(old(View()), answers, shard, m)
    {
      ok := answers.accept(pushes);
      pushes := pushes + 1;
      if ok {
        shards := shards[shard := shards[shard] + [m]];
      }
    }

    predicate Wired(shard: nat)
      reads this
    {
      shard < |shards| && shard < |wiring.present| && wiring.present[shard]
    }

    method TryRouteToShard(h: Handle) returns (result: Enqueue)
      modifies this`pushes, this`shards
      ensures (View(), result) == TryRoute(old(View()), answers, wiring, h)
    {
      if !Wired(h.shard) {
        return BadTarget;
      }
      var ok := PushToShard(h.shard, Frame(h));
      return if ok then Enqueued else Full;
    }

    method TerminalHandoff(h: Handle) returns (kept: bool)
      modifies this`pushes, this`logger, this`recycled, this`leaked
      ensures (View(), kept) == Handoff(old(View()), answers, h)
    {
      kept := answers.accept(pushes);
      pushes := pushes + 1;
      if kept {
        logger := logger + [h];
        return;
      }
      kept := answers.accept(pushes);
      pushes := pushes + 1;
      if kept {
        recycled := recycled + [h];
      } else {
        leaked := leaked + [h];
      }
    }

    method RouteMarketBarrier(b: Barrier) returns (d: Delivery)
      modifies this`pushes, this`shards
      ensures (View(), d) == RouteMarket(old(View()), answers, wiring, b)
    {
      if b.reason == NO_REASON || !Wired(b.shard) {
        return InvalidTarget;
      }
      var ok := PushToShard(b.shard, MarketBarrier(b));
      return if ok then Delivered else DeliveryBlocked;
    }

    /** The while loop over shard queues. */
    method RouteSubscriptionBarrier(b: SubscriptionBarrier, from: nat) returns (next: nat, d: Delivery)
      modifies this`pushes, this`shards
      ensures (View(), next, d) == RouteSubscription(old(View()), answers, wiring, b, from)
    {
      hide PushShard;
      next := from;
      if b.reason == NO_REASON || |shards| == 0 || from > |shards| {
        return next, InvalidTarget;
      }
      while next < |shards|
        invariant from <= next <= |shards| == |old(shards)|
        invariant Broadcast(old(View()), answers, wiring, b, from) == Broadcast(View(), answers, wiring, b, next)
        invariant pending == old(pending) && fact == old(fact) && facts == old(facts)
      {
        if !Wired(next) {
          return next, InvalidTarget;
        }
        PushKeepsLength(View(), answers, next, Subscription(b));
        var ok := PushToShard(next, Subscription(b));
        if !ok {
          return next, DeliveryBlocked;
        }
        next := next + 1;
      }
      return next, Delivered;
    }

    method FinishSubscriptionBarrier(b: SubscriptionBarrier) returns (r: Result)
      modifies this`pushes, this`facts, this`fact
      ensures (View(), r) == Finish(old(View()), answers, wiring, b)
    {
      if !wiring.control {
        return Faulted;
      }
      var ok := answers.accept(pushes);
      pushes := pushes + 1;
      if ok {
        facts := facts + [b];
        return Completed;
      }
      fact := Some(b);
      return Blocked;
    }

    method BeginMarketBarrier(b: Barrier) returns (r: Result)
      modifies this`pushes, this`shards, this`pending
      ensures (View(), r) == BeginMarket(old(View()), answers, wiring, b)
    {
      hide RouteMarket;
      var d := RouteMarketBarrier(b);
      match d {
        case Delivered => return Completed;
        case DeliveryBlocked =>
          pending := Some(PendingMarket(b));
          return Blocked;
        case InvalidTarget => return Faulted;
      }
    }

    method BeginSubscriptionBarrier(b: SubscriptionBarrier) returns (r: Result)
      modifies this`pushes, this`shards, this`pending, this`facts, this`fact
      ensures (View(), r) == BeginSubscription(old(View()), answers, wiring, b)
    {
      hide RouteSubscription, Finish;
      var next, d := RouteSubscriptionBarrier(b, 0);
      match d {
        case Delivered => r := FinishSubscriptionBarrier(b);
        case DeliveryBlocked =>
          pending := Some(PendingSubscription(b, next));
          return Blocked;
        case InvalidTarget => return Faulted;
      }
    }

    ghost method NoteInput(m: Message, c: Contribution)
      modifies this`inputs, this`given
      ensures View() == Note(old(View()), m, c)
    {
      inputs := inputs + [m];
      given := given + [c];
    }

    method RouteOneFrame(h: Handle) returns (r: Result)
      modifies this
      ensures (View(), r) == RouteFrame(old(View()), answers, wiring, h)
    {
      hide TryRoute, Handoff, BeginMarket;
      var e := TryRouteToShard(h);
      match e {
        case Enqueued =>
          NoteInput(Frame(h), ToShard(h.shard, Frame(h)));
          return Completed;
        case BadTarget =>
          var _ := TerminalHandoff(h);
          NoteInput(Frame(h), Nothing);
          return Faulted;
        case Full =>
          var kept := TerminalHandoff(h);
          if !kept {
            NoteInput(Frame(h), Nothing);
            return Faulted;
          }
          if !IsBook(h.kind) {
            NoteInput(Frame(h), Nothing);
            return Completed;
          }
          var b := BarrierFor(h, nextIncident);
          nextIncident := nextIncident + 1;
          NoteInput(Frame(h), ToShard(h.shard, MarketBarrier(b)));
          r := BeginMarketBarrier(b);
      }
    }

    method RouteOneMessage(m: Message) returns (r: Result)
      modifies this
      ensures (View(), r) == RouteMessage(old(View()), answers, wiring, m)
    {
      hide RouteFrame, BeginMarket, BeginSubscription;
      if pending.Some? || fact.Some? {
        return Blocked;
      }
      match m {
        case Frame(h) => r := RouteOneFrame(h);
        case MarketBarrier(b) =>
          NoteInput(m, ToShard(b.shard, m));
          r := BeginMarketBarrier(b);
        case Subscription(b) =>
          NoteInput(m, ToAll(b));
          r := BeginSubscriptionBarrier(b);
      }
    }

    method FlushPendingBarrier() returns (r: Result)
      modifies this`pushes, this`shards, this`pending, this`facts, this`fact
      ensures (View(), r) == Flush(old(View()), answers, wiring)
    {
      hide RouteMarket, RouteSubscription, Finish;
      if fact.Some? {
        var ok := wiring.control && answers.accept(pushes);
        pushes := pushes + 1;
        if !ok {
          return Blocked;
        }
        facts := facts + [fact.value];
        fact := None;
        return Completed;
      }
      match pending {
        case None => return Completed;
        case Some(PendingMarket(b)) =>
          var d := RouteMarketBarrier(b);
          match d {
            case Delivered =>
              pending := None;
              return Completed;
            case DeliveryBlocked => return Blocked;
            case InvalidTarget => return Faulted;
          }
        case Some(PendingSubscription(b, from)) =>
          var next, d := RouteSubscriptionBarrier(b, from);
          match d {
            case Delivered =>
              pending := None;
              r := FinishSubscriptionBarrier(b);
            case DeliveryBlocked =>
              pending := Some(PendingSubscription(b, next));
              return Blocked;
            case InvalidTarget => return Faulted;
          }
      }
    }

    /** One turn of the router thread; `input` is what its queue offers. */
    method RunTurn(input: Option<Message>) returns (taken: bool)
      requires Valid()
      modifies this
      ensures Valid()
      ensures View() == Turn(old(View()), answers, wiring, input)
      ensures taken <==> !old(stopped) && input.Some? && Flush(old(View()), answers, wiring).1.Completed?
    {
      hide RouterInv, Flush, RouteMessage;
      TurnInv(View(), answers, wiring, input);
      taken := false;
      if stopped {
        return;
      }
      var r := FlushPendingBarrier();
      if r.Faulted? {
        stopped := true;
      } else if r.Completed? && input.Some? {
        taken := true;
        r := RouteOneMessage(input.value);
        if r.Faulted? {
          stopped := true;
        }
      }
    }
  }

  lemma PushKeepsLength(s: RouterState, q: Answers, shard: nat, m: Message)
    requires shard < |s.shards|
    ensures |PushShard(s, q, shard, m).0.shards| == |s.shards|
  {
  }
}
