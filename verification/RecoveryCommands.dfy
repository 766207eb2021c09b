/** Choosing requests: the single-command form, the batch form, and why the second is repeated
    use of the first. */
module RecoveryCommands {
  import opened Wrappers
  import opened Recovery

  predicate ReadyIn(c: Coordinator, now: int, r: nat, i: nat) {
    r in c.incidents && i < |c.incidents[r].entries| && Ready(c.incidents[r].entries[i], now)
  }

  function CommandAt(c: Coordinator, r: nat, i: nat): Command
    requires r in c.incidents && i < |c.incidents[r].entries|
  {
    CommandFor(c.incidents[r], c.incidents[r].entries[i])
  }

  /** Order of service: oldest recovery first, then lowest market. */
  predicate Precedes(a: Command, b: Command) {
    a.recovery < b.recovery || (a.recovery == b.recovery && a.market <= b.market)
  }

  ghost predicate IsReadyCommand(c: Coordinator, now: int, cmd: Command) {
    exists r: nat, i: nat :: ReadyIn(c, now, r, i) && cmd == CommandAt(c, r, i)
  }

  ghost predicate ServedFirst(c: Coordinator, now: int, cmd: Command) {
    forall r: nat, i: nat :: ReadyIn(c, now, r, i) ==> Precedes(cmd, CommandAt(c, r, i))
  }

  ghost predicate NothingReady(c: Coordinator, now: int) {
    forall r: nat, i: nat :: !ReadyIn(c, now, r, i)
  }

  /** What next_pending_command answers. */
  ghost predicate IsNext(c: Coordinator, now: int, o: Option<Command>) {
    match o
    case None => NothingReady(c, now)
    case Some(cmd) => IsReadyCommand(c, now, cmd) && ServedFirst(c, now, cmd)
  }

  /** The answer does not depend on the order in which the incident map is walked. */
  lemma NextUnique(c: Coordinator, now: int, o: Option<Command>, o': Option<Command>)
    requires Coherent(c)
    requires IsNext(c, now, o) && IsNext(c, now, o')
    ensures o == o'
  {
    if o.Some? && o'.Some? {
      var r: nat, i: nat :| ReadyIn(c, now, r, i) && o.value == CommandAt(c, r, i);
      var r': nat, i': nat :| ReadyIn(c, now, r', i') && o'.value == CommandAt(c, r', i');
      assert Precedes(o.value, CommandAt(c, r', i')) && Precedes(o'.value, CommandAt(c, r, i));
      assert r == r';
      assert DistinctMarkets(c.incidents[r].entries);
      assert i == i';
    }
  }

  predicate SortedByMarket(cmds: seq<Command>) {
    forall i, j :: 0 <= i < j < |cmds| ==> cmds[i].market < cmds[j].market
  }

  /** Recovery r is the oldest one with a ready market. */
  ghost predicate OldestReady(c: Coordinator, now: int, r: nat) {
    && (exists i: nat :: ReadyIn(c, now, r, i))
    && (forall r': nat, i': nat :: ReadyIn(c, now, r', i') ==> r <= r')
  }

  ghost predicate ReadyFor(c: Coordinator, now: int, r: nat, cmd: Command) {
    exists i: nat :: ReadyIn(c, now, r, i) && cmd == CommandAt(c, r, i)
  }

  /** cmds is the list of the k lowest ready markets of incident r. */
  ghost predicate LowestReady(c: Coordinator, now: int, r: nat, k: nat, cmds: seq<Command>) {
    && SortedByMarket(cmds)
    && |cmds| <= k
    && (forall j :: 0 <= j < |cmds| ==> ReadyFor(c, now, r, cmds[j]))
    && (forall i: nat :: ReadyIn(c, now, r, i) ==>
          || CommandAt(c, r, i) in cmds
          || (|cmds| == k && forall j :: 0 <= j < |cmds| ==> cmds[j].market < CommandAt(c, r, i).market))
  }

  /** What next_pending_commands answers. */
  ghost predicate IsBatch(c: Coordinator, now: int, k: nat, cmds: seq<Command>) {
    if k == 0 || NothingReady(c, now) then cmds == []
    else exists r: nat :: OldestReady(c, now, r) && LowestReady(c, now, r, k, cmds)
  }

  function MarkAll(c: Coordinator, cmds: seq<Command>, now: int): Coordinator
    decreases |cmds|
  {
    if cmds == [] then c else MarkAll(MarkEnqueued(c, cmds[0], now).0, cmds[1..], now)
  }

  /** c' is c after some of incident r's ready markets, those in `done`, were marked. */
  ghost predicate MarkedSome(c: Coordinator, c': Coordinator, now: int, r: nat, done: set<nat>) {
    && r in c.incidents && c'.incidents.Keys == c.incidents.Keys && c'.latch == c.latch
    && (forall x :: x in c.incidents && x != r ==> c'.incidents[x] == c.incidents[x])
    && c'.incidents[r].id == c.incidents[r].id && c'.incidents[r].universe == c.incidents[r].universe
    && |c'.incidents[r].entries| == |c.incidents[r].entries|
    && (forall i :: 0 <= i < |c.incidents[r].entries| ==>
          var e, e' := c.incidents[r].entries[i], c'.incidents[r].entries[i];
          if e.market in done then e'.market == e.market && !Ready(e', now) else e' == e)
  }

  lemma MarkOne(c: Coordinator, now: int, r: nat, i: nat)
    requires Coherent(c) && ReadyIn(c, now, r, i)
    ensures MarkEnqueued(c, CommandAt(c, r, i), now).1
    ensures MarkedSome(c, MarkEnqueued(c, CommandAt(c, r, i), now).0, now, r, {c.incidents[r].entries[i].market})
    ensures Coherent(MarkEnqueued(c, CommandAt(c, r, i), now).0)
  {
    var e := c.incidents[r].entries[i];
    assert Pursues(c, r, e.market);
    assert Holds(c, e.market, r);
    assert FindEntry(c.incidents[r].entries, e.market) == Some(i) by {
      assert DistinctMarkets(c.incidents[r].entries);
    }
    MarkCoherent(c, CommandAt(c, r, i), now, 0);
  }

  lemma MarkedTwice(c: Coordinator, c1: Coordinator, c2: Coordinator, now: int, r: nat, a: set<nat>, b: set<nat>)
    requires MarkedSome(c, c1, now, r, a) && MarkedSome(c1, c2, now, r, b)
    ensures MarkedSome(c, c2, now, r, a + b)
  {
  }

  function CommandMarkets(cmds: seq<Command>): set<nat> {
    set j | 0 <= j < |cmds| :: cmds[j].market
  }

  /** Marking a prefix of the batch marks exactly those markets. */
  lemma {:induction false} MarkPrefix(c: Coordinator, now: int, r: nat, k: nat, cmds: seq<Command>, n: nat)
    requires Coherent(c) && LowestReady(c, now, r, k, cmds) && n <= |cmds|
    requires r in c.incidents
    ensures Coherent(MarkAll(c, cmds[..n], now))
    ensures MarkedSome(c, MarkAll(c, cmds[..n], now), now, r, CommandMarkets(cmds[..n]))
    decreases n
  {
    hide Coherent, MarkEnqueued, LowestReady;
    if n > 0 {
      MarkPrefix(c, now, r, k, cmds, n - 1);
      var c0 := MarkAll(c, cmds[..n - 1], now);
      assert MarkAll(c, cmds[..n], now) == MarkEnqueued(c0, cmds[n - 1], now).0 by {
        MarkAllSnoc(c, cmds[..n - 1], cmds[n - 1], now);
        assert cmds[..n] == cmds[..n - 1] + [cmds[n - 1]];
      }
      MarkNext(c, c0, now, r, k, cmds, n - 1);
      assert cmds[..(n - 1) + 1] == cmds[..n];
    }
  }

  /** One more mark on top of a marked prefix is accepted. */
  lemma MarkNext(c: Coordinator, c0: Coordinator, now: int, r: nat, k: nat, cmds: seq<Command>, n: nat)
    requires LowestReady(c, now, r, k, cmds) && n < |cmds|
    requires Coherent(c0) && MarkedSome(c, c0, now, r, CommandMarkets(cmds[..n]))
    ensures MarkEnqueued(c0, cmds[n], now).1
    ensures Coherent(MarkEnqueued(c0, cmds[n], now).0)
    ensures MarkedSome(c, MarkEnqueued(c0, cmds[n], now).0, now, r, CommandMarkets(cmds[..n + 1]))
  {
    var i := ReadyAfterPrefix(c, c0, now, r, k, cmds, n);
    MarkOne(c0, now, r, i);
    MarkedTwice(c, c0, MarkEnqueued(c0, cmds[n], now).0, now, r, CommandMarkets(cmds[..n]), {cmds[n].market});
    MarketsSnoc(cmds, n);
  }

  lemma MarketsSnoc(cmds: seq<Command>, n: nat)
    requires n < |cmds|
    ensures CommandMarkets(cmds[..n + 1]) == CommandMarkets(cmds[..n]) + {cmds[n].market}
  {
    forall m | m in CommandMarkets(cmds[..n + 1]) ensures m in CommandMarkets(cmds[..n]) + {cmds[n].market} {
      var j :| 0 <= j < n + 1 && cmds[..n + 1][j].market == m;
      if j < n { assert cmds[..n][j].market == m; }
    }
    forall m | m in CommandMarkets(cmds[..n]) + {cmds[n].market} ensures m in CommandMarkets(cmds[..n + 1]) {
      if m != cmds[n].market {
        var j :| 0 <= j < n && cmds[..n][j].market == m;
        assert cmds[..n + 1][j].market == m;
      } else {
        assert cmds[..n + 1][n].market == m;
      }
    }
  }

  lemma {:induction false} MarkAllSnoc(c: Coordinator, cmds: seq<Command>, cmd: Command, now: int)
    ensures MarkAll(c, cmds + [cmd], now) == MarkEnqueued(MarkAll(c, cmds, now), cmd, now).0
    decreases |cmds|
  {
    if cmds == [] {
      assert cmds + [cmd] == [cmd];
    } else {
      assert (cmds + [cmd])[1..] == cmds[1..] + [cmd];
      MarkAllSnoc(MarkEnqueued(c, cmds[0], now).0, cmds[1..], cmd, now);
    }
  }

  lemma ReadyAfterPrefix(c: Coordinator, c': Coordinator, now: int, r: nat, k: nat, cmds: seq<Command>, n: nat)
    returns (i: nat)
    requires LowestReady(c, now, r, k, cmds) && n < |cmds|
    requires MarkedSome(c, c', now, r, CommandMarkets(cmds[..n]))
    ensures ReadyIn(c', now, r, i) && cmds[n] == CommandAt(c', r, i)
    ensures c'.incidents[r].entries[i].market == cmds[n].market
  {
    assert ReadyFor(c, now, r, cmds[n]);
    i :| ReadyIn(c, now, r, i) && cmds[n] == CommandAt(c, r, i);
    assert cmds[n].market !in CommandMarkets(cmds[..n]);
  }

  lemma NextAfterPrefix(c: Coordinator, c': Coordinator, now: int, r: nat, k: nat, cmds: seq<Command>, n: nat)
    requires Coherent(c) && OldestReady(c, now, r) && LowestReady(c, now, r, k, cmds) && n < |cmds|
    requires Coherent(c') && MarkedSome(c, c', now, r, CommandMarkets(cmds[..n]))
    ensures IsNext(c', now, Some(cmds[n]))
  {
    var i := ReadyAfterPrefix(c, c', now, r, k, cmds, n);
    forall r': nat, i': nat | ReadyIn(c', now, r', i') ensures Precedes(cmds[n], CommandAt(c', r', i')) {
      assert ReadyIn(c, now, r', i') && CommandAt(c', r', i') == CommandAt(c, r', i');
      if r' == r {
        assert CommandAt(c, r, i').market !in CommandMarkets(cmds[..n]);
        NotEarlier(cmds, n, CommandAt(c, r, i'));
      }
    }
  }

  lemma NotEarlier(cmds: seq<Command>, n: nat, cmd: Command)
    requires SortedByMarket(cmds) && n < |cmds|
    requires cmd.market !in CommandMarkets(cmds[..n])
    ensures cmd in cmds ==> cmds[n].market <= cmd.market
  {
    forall j | 0 <= j < n ensures cmds[j].market in CommandMarkets(cmds[..n]) {
      assert cmds[..n][j] == cmds[j];
    }
  }

  /** The i-th command of a batch is what the single form answers after the earlier ones were
      marked, and marking it succeeds: the commit-failed branch of process_recovery is dead. */
  lemma BatchRefinesSingle(c: Coordinator, now: int, k: nat, cmds: seq<Command>, i: nat)
    requires Coherent(c) && IsBatch(c, now, k, cmds) && i < |cmds|
    ensures Coherent(MarkAll(c, cmds[..i], now))
    ensures IsNext(MarkAll(c, cmds[..i], now), now, Some(cmds[i]))
    ensures MarkEnqueued(MarkAll(c, cmds[..i], now), cmds[i], now).1
  {
    var r: nat :| OldestReady(c, now, r) && LowestReady(c, now, r, k, cmds);
    MarkPrefix(c, now, r, k, cmds, i);
    NextAfterPrefix(c, MarkAll(c, cmds[..i], now), now, r, k, cmds, i);
    MarkNext(c, MarkAll(c, cmds[..i], now), now, r, k, cmds, i);
  }

  /** A batch is empty only if there is nothing to do or no room to do it. */
  lemma BatchEmptyIff(c: Coordinator, now: int, k: nat, cmds: seq<Command>)
    requires IsBatch(c, now, k, cmds)
    ensures cmds == [] <==> k == 0 || NothingReady(c, now)
  {
    if k > 0 && !NothingReady(c, now) {
      var r: nat :| OldestReady(c, now, r) && LowestReady(c, now, r, k, cmds);
      var i: nat :| ReadyIn(c, now, r, i);
    }
  }

  lemma SameNextCommand(c: Coordinator, now: int, k: nat, a: seq<Command>, b: seq<Command>, n: nat)
    requires Coherent(c) && IsBatch(c, now, k, a) && IsBatch(c, now, k, b)
    requires n < |a| && n < |b| && a[..n] == b[..n]
    ensures a[n] == b[n]
  {
    BatchRefinesSingle(c, now, k, a, n);
    BatchRefinesSingle(c, now, k, b, n);
    NextUnique(MarkAll(c, a[..n], now), now, Some(a[n]), Some(b[n]));
  }

  lemma {:induction false} BatchPrefixUnique(c: Coordinator, now: int, k: nat, a: seq<Command>, b: seq<Command>, n: nat)
    requires Coherent(c) && IsBatch(c, now, k, a) && IsBatch(c, now, k, b)
    requires n <= |a| && n <= |b|
    ensures a[..n] == b[..n]
    decreases n
  {
    if n > 0 {
      BatchPrefixUnique(c, now, k, a, b, n - 1);
      SameNextCommand(c, now, k, a, b, n - 1);
      assert a[..n] == a[..n - 1] + [a[n - 1]] && b[..n] == b[..n - 1] + [b[n - 1]];
    }
  }

  /** Two answers to the same batch question are the same list. */
  lemma BatchUnique(c: Coordinator, now: int, k: nat, a: seq<Command>, b: seq<Command>)
    requires Coherent(c) && IsBatch(c, now, k, a) && IsBatch(c, now, k, b)
    ensures a == b
  {
    if |a| <= |b| {
      BatchPrefixUnique(c, now, k, a, b, |a|);
      BatchNotLonger(c, now, k, b, a);
    } else {
      BatchPrefixUnique(c, now, k, b, a, |b|);
      BatchNotLonger(c, now, k, a, b);
    }
  }

  lemma BatchNotLonger(c: Coordinator, now: int, k: nat, a: seq<Command>, b: seq<Command>)
    requires IsBatch(c, now, k, a) && IsBatch(c, now, k, b) && b <= a
    ensures |a| <= |b|
  {
    if k > 0 && !NothingReady(c, now) {
      var r: nat :| OldestReady(c, now, r) && LowestReady(c, now, r, k, a);
      var r': nat :| OldestReady(c, now, r') && LowestReady(c, now, r', k, b);
      assert r == r';
      forall j | 0 <= j < |a| ensures a[j] in b || |b| == k {
        assert ReadyFor(c, now, r, a[j]);
      }
      BeyondPrefix(a, b);
    }
  }

  lemma BeyondPrefix(a: seq<Command>, b: seq<Command>)
    requires SortedByMarket(a) && b <= a
    ensures |b| < |a| ==> a[|b|] !in b
  {
    forall j | 0 <= j < |b| ensures b[j] == a[j] {}
  }
}
