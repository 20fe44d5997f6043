/** accountWriteThrottle: at most one write per account and interval, with a bounded memory. The
    bounded throttle is compared with one that never forgets. */
module WriteThrottle {
  type Memory = map<int, int>

  const MAX_ENTRIES := 4096

  /** A recent write of the same account is remembered. */
  predicate Recent(interval: int, m: Memory, id: int, now: int) {
    id in m && now - m[id] < interval
  }

  predicate Exempt(interval: int, id: int) {
    id <= 0 || interval <= 0
  }

  predicate Allowed(interval: int, m: Memory, id: int, now: int) {
    Exempt(interval, id) || !Recent(interval, m, id, now)
  }

  // ---- forgetting ------------------------------------------------------------------------------

  predicate Within(part: Memory, m: Memory) {
    forall k :: k in part ==> k in m && part[k] == m[k]
  }

  /** Nothing that was dropped is younger than anything that was kept. */
  predicate OldestDropped(kept: Memory, m: Memory) {
    Within(kept, m) && forall k, j :: k in m && k !in kept && j in kept ==> m[k] <= m[j]
  }

  /** What an allowed write may leave behind: everything when it fits, and otherwise the entries that
      are not stale, cut down to the limit by dropping oldest ones in any order. */
  ghost predicate Remembered(interval: int, m: Memory, now: int, kept: Memory) {
    if |m| <= MAX_ENTRIES then kept == m
    else exists young: Memory ::
      && Within(young, m)
      && (forall k :: k in m && k !in young ==> m[k] < now - 4 * interval)
      && OldestDropped(kept, young)
      && (kept == young || |kept| == MAX_ENTRIES)
      && |kept| <= MAX_ENTRIES
  }

  ghost predicate Step(interval: int, m: Memory, id: int, now: int, next: Memory) {
    if Exempt(interval, id) || !Allowed(interval, m, id, now) then next == m
    else Remembered(interval, m[id := now], now, next)
  }

  /** The throttle that never forgets. */
  function StepUnbounded(interval: int, m: Memory, id: int, now: int): Memory {
    if Exempt(interval, id) || !Allowed(interval, m, id, now) then m else m[id := now]
  }

  class AccountWriteThrottle {
    const minInterval: int
    var lastById: Memory

    constructor (interval: int)
      ensures minInterval == interval && lastById == map[]
    {
      minInterval := interval;
      lastById := map[];
    }

    method Allow(id: int, now: int) returns (allowed: bool)
      requires |lastById| <= MAX_ENTRIES
      modifies this
      ensures allowed == Allowed(minInterval, old(lastById), id, now)
      ensures Step(minInterval, old(lastById), id, now, lastById)
      ensures |lastById| <= MAX_ENTRIES
    {
      if id <= 0 || minInterval <= 0 {
        return true;
      }
      if id in lastById && now - lastById[id] < minInterval {
        return false;
      }
      lastById := lastById[id := now];
      if |lastById| > MAX_ENTRIES {
        ghost var all := lastById;
        DropStale(now - 4 * minInterval);
        ghost var young := lastById;
        DropOldest();
        assert Remembered(minInterval, all, now, lastById) by {
          assert Within(young, all) && OldestDropped(lastById, young);
        }
      }
      return true;
    }

    method DropStale(cutoff: int)
      modifies this
      ensures Within(lastById, old(lastById))
      ensures forall k :: k in old(lastById) ==> (k in lastById <==> old(lastById)[k] >= cutoff)
    {
      var todo := lastById.Keys;
      while todo != {}
        invariant Within(lastById, old(lastById)) && todo <= old(lastById).Keys
        invariant forall k :: k in old(lastById) ==>
                    (k in lastById <==> k in todo || old(lastById)[k] >= cutoff)
        decreases todo
      {
        SomeElement(todo);
        var k :| k in todo;
        todo := todo - {k};
        if lastById[k] < cutoff {
          lastById := lastById - {k};
        }
      }
    }

    /** Entries sorted by age, the oldest deleted until the rest fits. */
    method DropOldest()
      modifies this
      ensures OldestDropped(lastById, old(lastById))
      ensures |lastById| <= MAX_ENTRIES
      ensures lastById == old(lastById) || |lastById| == MAX_ENTRIES
    {
      while |lastById| > MAX_ENTRIES
        invariant OldestDropped(lastById, old(lastById))
        invariant lastById == old(lastById) || |lastById| >= MAX_ENTRIES
      {
        OldestExists(lastById);
        var k :| k in lastById && forall j :: j in lastById ==> lastById[k] <= lastById[j];
        RemovalShrinks(lastById, k);
        lastById := lastById - {k};
      }
    }
  }

  lemma RemovalShrinks(m: Memory, k: int)
    requires k in m
    ensures |m - {k}| == |m| - 1
  {
  }

  lemma SomeElement(s: set<int>)
    requires s != {}
    ensures exists x :: x in s
  {
    assert (forall x :: x !in s) ==> s == {};
  }

  lemma SomeKey(m: Memory)
    requires |m| > 0
    ensures exists k :: k in m
  {
    assert (forall k :: k !in m) ==> m == map[];
  }

  lemma {:induction false} OldestExists(m: Memory)
    requires |m| > 0
    ensures exists k :: k in m && forall j :: j in m ==> m[k] <= m[j]
    decreases |m|
  {
    SomeKey(m);
    var x :| x in m;
    var rest := m - {x};
    RemovalShrinks(m, x);
    if |rest| > 0 {
      OldestExists(rest);
      var y :| y in rest && forall j :: j in rest ==> rest[y] <= rest[j];
      var k := if m[x] <= m[y] then x else y;
      assert forall j :: j in m ==> j == x || j in rest;
      assert k in m && forall j :: j in m ==> m[k] <= m[j];
    } else {
      assert forall j :: j in m ==> j == x || j in rest;
      assert forall j :: j in m ==> m[x] <= m[j];
    }
  }

  // ---- runs --------------------------------------------------------------------------------------

  datatype Call = Call(id: int, now: int)

  function Unbounded(interval: int, calls: seq<Call>): Memory {
    if calls == [] then map[]
    else
      var last := calls[|calls| - 1];
      StepUnbounded(interval, Unbounded(interval, calls[..|calls| - 1]), last.id, last.now)
  }

  /** memories[i] is what the bounded throttle remembers before call i; evictions may go either way. */
  ghost predicate IsRun(interval: int, calls: seq<Call>, memories: seq<Memory>) {
    && |memories| == |calls| + 1 && memories[0] == map[]
    && forall i | 0 <= i < |calls| :: Step(interval, memories[i], calls[i].id, calls[i].now, memories[i + 1])
  }

  ghost predicate Ordered(calls: seq<Call>) {
    forall i, j | 0 <= i < j < |calls| :: calls[i].now <= calls[j].now
  }

  /** The accounts written within one interval before `now`. */
  function Live(interval: int, m: Memory, now: int): set<int> {
    set id | id in m && now - m[id] < interval
  }

  /** The bounded throttle remembers nothing wrong and nothing recent is missing. */
  ghost predicate Agrees(interval: int, bounded: Memory, full: Memory, now: int) {
    Within(bounded, full) && forall id :: id in Live(interval, full, now) ==> id in bounded
  }

  lemma AgreeingDecisions(interval: int, bounded: Memory, full: Memory, id: int, now: int)
    requires Agrees(interval, bounded, full, now)
    ensures Allowed(interval, bounded, id, now) == Allowed(interval, full, id, now)
  {
  }

  lemma LaterIsLess(interval: int, m: Memory, now: int, later: int)
    requires now <= later
    ensures Live(interval, m, later) <= Live(interval, m, now)
  {
  }

  /** A set of keys is no larger than the map that has them all. */
  lemma {:induction false} NoMoreKeys(s: set<int>, m: Memory)
    requires forall k :: k in s ==> k in m
    ensures |s| <= |m|
  {
    if s != {} {
      SomeElement(s);
      var x :| x in s;
      RemovalShrinks(m, x);
      NoMoreKeys(s - {x}, m - {x});
    }
  }

  lemma {:induction false} NoFewerKeys(s: set<int>, m: Memory)
    requires forall k :: k in m ==> k in s
    ensures |m| <= |s|
    decreases |s|
  {
    if |m| > 0 {
      SomeKey(m);
      var x :| x in m;
      RemovalShrinks(m, x);
      NoFewerKeys(s - {x}, m - {x});
    }
  }

  /** Dropping oldest entries loses a recent one only when more than the limit are recent. */
  lemma RecentSurvive(interval: int, full: Memory, m: Memory, now: int, kept: Memory)
    requires interval > 0 && Within(m, full) && Remembered(interval, m, now, kept)
    requires |Live(interval, full, now)| <= MAX_ENTRIES
    ensures forall id :: id in Live(interval, m, now) ==> id in kept
  {
    if id :| id in Live(interval, m, now) && id !in kept {
      var young: Memory :| Within(young, m)
        && (forall k :: k in m && k !in young ==> m[k] < now - 4 * interval)
        && OldestDropped(kept, young) && (kept == young || |kept| == MAX_ENTRIES) && |kept| <= MAX_ENTRIES;
      assert id in young;
      var live := Live(interval, full, now);
      assert forall k :: k in kept ==> k in live && k != id;
      assert live == live - {id} + {id};
      NoFewerKeys(live - {id}, kept);
    }
  }

  lemma StepAgrees(interval: int, bounded: Memory, full: Memory, id: int, now: int, next: Memory)
    requires interval > 0 && Agrees(interval, bounded, full, now) && Step(interval, bounded, id, now, next)
    requires |Live(interval, StepUnbounded(interval, full, id, now), now)| <= MAX_ENTRIES
    ensures Agrees(interval, next, StepUnbounded(interval, full, id, now), now)
  {
    AgreeingDecisions(interval, bounded, full, id, now);
    if !Exempt(interval, id) && Allowed(interval, full, id, now) {
      var written, full' := bounded[id := now], full[id := now];
      RecentSurvive(interval, full', written, now, next);
      forall k | k in Live(interval, full', now) ensures k in next {
        if k != id {
          assert k in Live(interval, full, now);
        }
        assert k in Live(interval, written, now);
      }
    }
  }

  /** At most the limit of accounts were written within one interval, at every moment. */
  ghost predicate Modest(interval: int, calls: seq<Call>) {
    forall i | 0 < i <= |calls| :: |Live(interval, Unbounded(interval, calls[..i]), calls[i - 1].now)| <= MAX_ENTRIES
  }

  lemma {:induction false} RunAgrees(interval: int, calls: seq<Call>, memories: seq<Memory>, n: nat)
    requires interval > 0 && IsRun(interval, calls, memories) && Ordered(calls) && Modest(interval, calls)
    requires 0 < n <= |calls|
    ensures Agrees(interval, memories[n], Unbounded(interval, calls[..n]), calls[n - 1].now)
  {
    var c := calls[n - 1];
    assert calls[..n][..n - 1] == calls[..n - 1];
    var full := Unbounded(interval, calls[..n - 1]);
    if n > 1 {
      RunAgrees(interval, calls, memories, n - 1);
      LaterIsLess(interval, full, calls[n - 2].now, c.now);
    }
    StepAgrees(interval, memories[n - 1], full, c.id, c.now, memories[n]);
  }

  /** The bounded throttle has its say on every call a caller could make next, at every moment. */
  ghost predicate Faithful(interval: int, calls: seq<Call>, memories: seq<Memory>)
    requires |memories| == |calls| + 1
  {
    forall n, id | 0 < n <= |calls| :: SameAnswer(interval, calls, memories, n, id)
  }

  ghost predicate SameAnswer(interval: int, calls: seq<Call>, memories: seq<Memory>, n: nat, id: int)
    requires |memories| == |calls| + 1 && 0 < n <= |calls|
  {
    Allowed(interval, memories[n], id, calls[n - 1].now)
    == Allowed(interval, Unbounded(interval, calls[..n]), id, calls[n - 1].now)
  }

  lemma {:induction false} MemoryIsBounded(interval: int, calls: seq<Call>, memories: seq<Memory>, n: nat)
    requires IsRun(interval, calls, memories) && n <= |calls|
    ensures |memories[n]| <= MAX_ENTRIES
    decreases n
  {
    if n > 0 {
      MemoryIsBounded(interval, calls, memories, n - 1);
      assert Step(interval, memories[n - 1], calls[n - 1].id, calls[n - 1].now, memories[n]);
    }
  }

  lemma {:induction false} OnlyPositiveIds(interval: int, calls: seq<Call>)
    ensures forall k :: k in Unbounded(interval, calls) ==> k > 0
  {
    if calls != [] {
      OnlyPositiveIds(interval, calls[..|calls| - 1]);
    }
  }

  /** After every call the bounded throttle decides every possible next call of that moment like one
      that never forgets, exactly when at no moment more than 4096 accounts were written within one
      interval. */
  lemma FaithfulExactly(interval: int, calls: seq<Call>, memories: seq<Memory>)
    requires interval > 0 && IsRun(interval, calls, memories) && Ordered(calls)
    ensures Faithful(interval, calls, memories) <==> Modest(interval, calls)
  {
    if Modest(interval, calls) {
      forall n, id | 0 < n <= |calls| ensures SameAnswer(interval, calls, memories, n, id) {
        RunAgrees(interval, calls, memories, n);
        AgreeingDecisions(interval, memories[n], Unbounded(interval, calls[..n]), id, calls[n - 1].now);
      }
    } else {
      var n :| 0 < n <= |calls| && |Live(interval, Unbounded(interval, calls[..n]), calls[n - 1].now)| > MAX_ENTRIES;
      var live := Live(interval, Unbounded(interval, calls[..n]), calls[n - 1].now);
      MemoryIsBounded(interval, calls, memories, n);
      OnlyPositiveIds(interval, calls[..n]);
      if forall k :: k in live ==> k in memories[n] {
        NoMoreKeys(live, memories[n]);
      }
      var id :| id in live && id !in memories[n];
      assert Allowed(interval, memories[n], id, calls[n - 1].now);
      assert !SameAnswer(interval, calls, memories, n, id);
    }
  }

  /** Accounts 1 to k written at the same moment. */
  function Burst(k: nat): seq<Call> {
    seq(k, i requires 0 <= i < k => Call(i + 1, 0))
  }

  lemma {:induction false} BurstIsLive(interval: int, k: nat)
    requires interval > 0
    ensures forall id :: id in Unbounded(interval, Burst(k)) <==> 0 < id <= k
    ensures forall id :: id in Unbounded(interval, Burst(k)) ==> Unbounded(interval, Burst(k))[id] == 0
    ensures |Live(interval, Unbounded(interval, Burst(k)), 0)| == k
  {
    if k > 0 {
      BurstIsLive(interval, k - 1);
      assert Burst(k)[..k - 1] == Burst(k - 1);
      assert Live(interval, Unbounded(interval, Burst(k)), 0)
             == Live(interval, Unbounded(interval, Burst(k - 1)), 0) + {k};
    }
  }

  /** 4097 accounts at one moment are too many. */
  lemma BurstOverflows(interval: int)
    requires interval > 0
    ensures Ordered(Burst(MAX_ENTRIES + 1)) && !Modest(interval, Burst(MAX_ENTRIES + 1))
  {
    var calls := Burst(MAX_ENTRIES + 1);
    BurstIsLive(interval, MAX_ENTRIES + 1);
    assert calls[..|calls|] == calls;
  }

  /** In a modest run every decision is the one of the throttle that never forgets. */
  lemma DecisionsAgree(interval: int, calls: seq<Call>, memories: seq<Memory>, n: nat)
    requires interval > 0 && IsRun(interval, calls, memories) && Ordered(calls) && Modest(interval, calls)
             && n < |calls|
    ensures Allowed(interval, memories[n], calls[n].id, calls[n].now)
            == Allowed(interval, Unbounded(interval, calls[..n]), calls[n].id, calls[n].now)
  {
    var full := Unbounded(interval, calls[..n]);
    if n > 0 {
      RunAgrees(interval, calls, memories, n);
      LaterIsLess(interval, full, calls[n - 1].now, calls[n].now);
    }
    AgreeingDecisions(interval, memories[n], full, calls[n].id, calls[n].now);
  }

  lemma {:induction false} LastWriteIsKept(interval: int, calls: seq<Call>, i: nat, j: nat)
    requires interval > 0 && Ordered(calls) && i < j <= |calls| && calls[i].id > 0
    requires Allowed(interval, Unbounded(interval, calls[..i]), calls[i].id, calls[i].now)
    ensures calls[i].id in Unbounded(interval, calls[..j])
    ensures Unbounded(interval, calls[..j])[calls[i].id] >= calls[i].now
  {
    assert calls[..j][..j - 1] == calls[..j - 1];
    if i < j - 1 {
      LastWriteIsKept(interval, calls, i, j - 1);
    }
  }

  /** In a modest run two allowed writes of one account are at least the interval apart. */
  lemma WritesAreApart(interval: int, calls: seq<Call>, memories: seq<Memory>, i: nat, j: nat)
    requires interval > 0 && IsRun(interval, calls, memories) && Ordered(calls) && Modest(interval, calls)
    requires i < j < |calls| && calls[i].id == calls[j].id > 0
    requires Allowed(interval, memories[i], calls[i].id, calls[i].now)
    requires Allowed(interval, memories[j], calls[j].id, calls[j].now)
    ensures calls[j].now - calls[i].now >= interval
  {
    DecisionsAgree(interval, calls, memories, i);
    DecisionsAgree(interval, calls, memories, j);
    LastWriteIsKept(interval, calls, i, j);
  }
}
