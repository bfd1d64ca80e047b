/**
 Reconciliation: each sweep lists the oldest stale orders up to a batch and offers them to the
 bounded queue, which may turn some away. With the queue drained between sweeps and no store
 errors, every stale order is finalised after a number of sweeps fixed by their count.
 */
module Sweep {
  import opened Collections
  import opened Orders
  import Fulfillment
  import Retry

  function Least(a: nat, b: nat): nat {
    if a <= b then a else b
  }

  /** The batch the sweeper asks for: a misconfigured size falls back to the queue's. */
  function BatchSize(configured: int, queueSize: nat): nat {
    if configured <= 0 then queueSize else configured
  }

  /** What becomes of an offered order. A send on the closed channel panics. */
  datatype Fate = Enqueued | HandedOver | LeftForSweeper | SendPanics

  predicate TakenUp(f: Fate) {
    f.Enqueued? || f.HandedOver?
  }

  /**
   The pool's channels: jobs is the buffer, quit and closed the two that Stop closes; taken is
   what workers have received, in order.
   */
  class Pool {
    const queueSize: nat
    var jobs: seq<nat>
    var taken: seq<nat>
    var quit: bool
    var closed: bool

    constructor (queueSize: nat)
      ensures this.queueSize == queueSize && jobs == [] && taken == [] && !quit && !closed
    {
      this.queueSize := queueSize;
      jobs, taken, quit, closed := [], [], false, false;
    }

    /**
     Whether the send can go ahead: the buffer has room, a worker waits at the empty channel, or
     the channel is closed.
     */
    predicate SendReady(waiting: bool)
      reads this
    {
      closed || |jobs| < queueSize || (waiting && jobs == [])
    }

    /**
     Never blocks. waiting: a worker is waiting to receive. pickQuit: the select prefers quit
     when the send is ready too. An order that is not taken is left for the next sweep.
     */
    method Process(id: nat, waiting: bool, pickQuit: bool) returns (fate: Fate)
      modifies `jobs, `taken
      ensures TakenUp(fate) <==> old(SendReady(waiting)) && !closed && !(quit && pickQuit)
      ensures fate == SendPanics <==> closed && !(quit && pickQuit)
      ensures fate == HandedOver <==> TakenUp(fate) && waiting && old(jobs) == []
      ensures taken == old(taken) + if fate == HandedOver then [id] else []
      ensures jobs == old(jobs) + if fate == Enqueued then [id] else []
    {
      if SendReady(waiting) && !(quit && pickQuit) {
        if closed {
          return SendPanics;
        }
        if waiting && jobs == [] {
          taken := taken + [id];
          return HandedOver;
        }
        jobs := jobs + [id];
        return Enqueued;
      }
      return LeftForSweeper;
    }

    /** The workers receive up to n jobs. */
    method Receive(n: nat)
      modifies `jobs, `taken
      ensures |jobs| <= |old(jobs)| && (n >= |old(jobs)| ==> jobs == [])
      ensures taken + jobs == old(taken + jobs)
    {
      var i := 0;
      while i < n && jobs != []
        invariant |jobs| <= |old(jobs)| && i <= n && (n >= |old(jobs)| ==> |jobs| <= n - i)
        invariant taken + jobs == old(taken + jobs)
        decreases n - i
      {
        assert jobs == [jobs[0]] + jobs[1..];
        taken, jobs := taken + [jobs[0]], jobs[1..];
        i := i + 1;
      }
    }

    /** Closes both channels; the workers, if there are any, receive all that is buffered. */
    method Stop(count: nat)
      modifies this
      ensures quit && closed
      ensures count >= 1 ==> jobs == [] && taken == old(taken + jobs)
      ensures count == 0 ==> jobs == old(jobs) && taken == old(taken)
    {
      quit := true;
      closed := true;
      if count >= 1 {
        Receive(|jobs|);
      }
    }
  }

  /**
   One sweep of a running pool. listed is what the stale query returned, None if it failed.
   Between two offers the workers may receive any number of jobs. Starting from an empty queue,
   as many of the listed orders as the queue can hold, from the front of the list, are always accepted.
   */
  method Reclaim(pool: Pool, listed: Option<seq<nat>>, pace: nat -> nat, waiting: nat -> bool)
      returns (accepted: seq<nat>)
    requires !pool.quit && !pool.closed
    modifies pool`jobs, pool`taken
    ensures pool.taken + pool.jobs == old(pool.taken + pool.jobs) + accepted
    ensures listed.None? ==> accepted == []
    ensures listed.Some? ==> forall id :: id in accepted ==> id in listed.value
    ensures listed.Some? && old(pool.jobs) == [] ==> Sure(listed.value, pool.queueSize) <= accepted
    ensures |old(pool.jobs)| <= pool.queueSize ==> |pool.jobs| <= pool.queueSize
  {
    accepted := [];
    if listed.None? {
      return;
    }
    var ids := listed.value;
    ghost var before := pool.taken + pool.jobs;
    for i := 0 to |ids|
      invariant pool.taken + pool.jobs == before + accepted
      invariant forall id :: id in accepted ==> id in ids
      invariant |pool.jobs| <= |old(pool.jobs)| + |accepted| && |accepted| <= i
      invariant old(pool.jobs) == [] && i <= pool.queueSize ==> accepted == ids[..i]
      invariant old(pool.jobs) == [] && i > pool.queueSize ==> ids[..pool.queueSize] <= accepted
      invariant |old(pool.jobs)| <= pool.queueSize ==> |pool.jobs| <= pool.queueSize
    {
      pool.Receive(pace(i));
      ghost var mid := pool.taken + pool.jobs;
      var fate := pool.Process(ids[i], waiting(i), false);
      if TakenUp(fate) {
        assert pool.taken + pool.jobs == mid + [ids[i]];
        assert before + accepted + [ids[i]] == before + (accepted + [ids[i]]);
        accepted := accepted + [ids[i]];
      }
    }
  }

  // ---------------------------------------------------------------- the stale query

  /** Orders with a pending payment, by the payment's creation time, older than the cutoff. */
  function Stale(pending: map<nat, int>, cutoff: int): set<nat> {
    set o | o in pending && pending[o] < cutoff
  }

  /** What the query may return: the oldest stale orders, oldest first, up to the limit; ties in any order. */
  predicate IsBatch(pending: map<nat, int>, cutoff: int, limit: nat, ids: seq<nat>) {
    && NoRepeats(ids)
    && |ids| == Least(limit, |Stale(pending, cutoff)|)
    && (forall i :: 0 <= i < |ids| ==> ids[i] in Stale(pending, cutoff))
    && (forall i, j :: 0 <= i < j < |ids| && ids[i] in pending && ids[j] in pending ==>
        pending[ids[i]] <= pending[ids[j]])
    && (forall i, o :: 0 <= i < |ids| && ids[i] in pending && o in Stale(pending, cutoff) && o !in ids ==>
        pending[ids[i]] <= pending[o])
  }

  // ---------------------------------------------------------------- rounds

  function Members(ids: seq<nat>): set<nat> {
    set id | id in ids
  }

  /** The orders a sweep is sure to get into an empty queue. */
  function Sure(ids: seq<nat>, queueSize: nat): seq<nat> {
    ids[..Least(|ids|, queueSize)]
  }

  predicate SweptBatch(before: map<nat, int>, after: map<nat, int>, age: int, sure: seq<nat>, accepted: seq<nat>) {
    && sure <= accepted
    && Stale(after, age) <= Stale(before, age) - Members(accepted)
  }

  /**
   A sweep at this cutoff followed by a drain without store errors: the accepted orders, which
   include the front of the batch up to the queue's size, are no longer pending, and no order
   older than age turned up. Orders that have gone stale since age may be in the batch too.
   */
  ghost predicate Round(before: map<nat, int>, after: map<nat, int>, age: int, cutoff: int, limit: nat,
                        queueSize: nat) {
    exists ids, accepted ::
      IsBatch(before, cutoff, limit, ids) && SweptBatch(before, after, age, Sure(ids, queueSize), accepted)
  }

  /** Sweeps at the given cutoffs, none before age. */
  ghost predicate Rounds(states: seq<map<nat, int>>, age: int, cutoffs: seq<int>, limit: nat, queueSize: nat) {
    && states != [] && |cutoffs| == |states|
    && forall k :: 0 < k < |states| ==>
         age <= cutoffs[k] && Round(states[k - 1], states[k], age, cutoffs[k], limit, queueSize)
  }

  lemma {:induction false} MembersSize(ids: seq<nat>)
    requires NoRepeats(ids)
    ensures |Members(ids)| == |ids|
  {
    if ids != [] {
      var front, x := ids[..|ids| - 1], ids[|ids| - 1];
      MembersSize(front);
      assert ids == front + [x];
      assert Members(ids) == Members(front) + {x};
      assert x !in front;
    }
  }

  /** Oldest first: a stale order passed over in a round is no older than any order the round is sure to finalise. */
  lemma OldestFirst(before: map<nat, int>, cutoff: int, limit: nat, queueSize: nat, ids: seq<nat>, i: nat, o: nat)
    requires IsBatch(before, cutoff, limit, ids) && i < |Sure(ids, queueSize)|
    requires o in Stale(before, cutoff) && o !in Sure(ids, queueSize)
    ensures ids[i] in before && before[ids[i]] <= before[o]
  {
    assert ids[i] in Stale(before, cutoff);
    if o in ids {
      var j :| 0 <= j < |ids| && ids[j] == o;
      assert forall k :: 0 <= k < |Sure(ids, queueSize)| ==> Sure(ids, queueSize)[k] == ids[k];
    }
  }

  /** If a younger order made it into the sure part of the batch, every order older than age did. */
  lemma YoungerMeansAllOld(before: map<nat, int>, age: int, cutoff: int, limit: nat, queueSize: nat, ids: seq<nat>,
                           i: nat)
    requires age <= cutoff && IsBatch(before, cutoff, limit, ids)
    requires i < |Sure(ids, queueSize)| && ids[i] !in Stale(before, age)
    ensures Stale(before, age) <= Members(Sure(ids, queueSize))
  {
    forall o | o in Stale(before, age) ensures o in Sure(ids, queueSize) {
      assert o in Stale(before, cutoff);
      if o !in Sure(ids, queueSize) {
        OldestFirst(before, cutoff, limit, queueSize, ids, i, o);
      }
    }
  }

  lemma SureSize(before: map<nat, int>, age: int, cutoff: int, limit: nat, queueSize: nat, ids: seq<nat>)
    requires age <= cutoff && IsBatch(before, cutoff, limit, ids)
    ensures |Sure(ids, queueSize)| >= Least(Least(limit, queueSize), |Stale(before, age)|)
    ensures NoRepeats(Sure(ids, queueSize))
  {
    SubsetSize(Stale(before, age), Stale(before, cutoff));
  }

  lemma PrefixMembers(a: seq<nat>, b: seq<nat>)
    requires a <= b
    ensures Members(a) <= Members(b)
  {
    forall x | x in a ensures x in b {
      var i :| 0 <= i < |a| && a[i] == x;
      assert b[i] == x;
    }
  }

  /** Taking distinct members out of a set. */
  lemma TakenOut(was: set<nat>, left: set<nat>, sure: seq<nat>)
    requires left <= was - Members(sure) && NoRepeats(sure) && Members(sure) <= was
    ensures |left| + |sure| <= |was|
  {
    SubsetSize(left, was - Members(sure));
    MembersSize(sure);
    DifferenceSize(was, Members(sure));
  }

  lemma AllInStale(pending: map<nat, int>, age: int, sure: seq<nat>)
    requires forall i :: 0 <= i < |sure| ==> sure[i] in Stale(pending, age)
    ensures Members(sure) <= Stale(pending, age)
  {
  }

  /**
   A round takes out at least as many of the orders older than age as fit both the batch and the
   queue, or all of them, even if orders that went stale later compete for the batch.
   */
  lemma RoundShrinks(before: map<nat, int>, after: map<nat, int>, age: int, cutoff: int, limit: nat, queueSize: nat)
    requires age <= cutoff && Round(before, after, age, cutoff, limit, queueSize)
    ensures |Stale(after, age)| + Least(Least(limit, queueSize), |Stale(before, age)|) <= |Stale(before, age)|
  {
    var ids, accepted :|
      IsBatch(before, cutoff, limit, ids) && SweptBatch(before, after, age, Sure(ids, queueSize), accepted);
    BatchShrinks(before, after, age, cutoff, limit, queueSize, ids, accepted);
  }

  lemma BatchShrinks(before: map<nat, int>, after: map<nat, int>, age: int, cutoff: int, limit: nat, queueSize: nat,
                     ids: seq<nat>, accepted: seq<nat>)
    requires age <= cutoff && IsBatch(before, cutoff, limit, ids)
    requires SweptBatch(before, after, age, Sure(ids, queueSize), accepted)
    ensures |Stale(after, age)| + Least(Least(limit, queueSize), |Stale(before, age)|) <= |Stale(before, age)|
  {
    var sure, was, left := Sure(ids, queueSize), Stale(before, age), Stale(after, age);
    PrefixMembers(sure, accepted);
    assert left <= was - Members(sure);
    if i: nat :| i < |sure| && sure[i] !in was {
      YoungerMeansAllOld(before, age, cutoff, limit, queueSize, ids, i);
      assert left == {};
    } else {
      AllInStale(before, age, sure);
      SureSize(before, age, cutoff, limit, queueSize, ids);
      TakenOut(was, left, sure);
    }
  }

  lemma DifferenceSize(a: set<nat>, b: set<nat>)
    requires b <= a
    ensures |a - b| == |a| - |b|
  {
    assert a == (a - b) + b;
  }

  lemma {:induction false} RoundsShrink(states: seq<map<nat, int>>, age: int, cutoffs: seq<int>, limit: nat,
                                        queueSize: nat, k: nat)
    requires Rounds(states, age, cutoffs, limit, queueSize) && k < |states|
    ensures var m, n := Least(limit, queueSize), |Stale(states[0], age)|;
            |Stale(states[k], age)| <= if k * m >= n then 0 else n - k * m
  {
    var m, n := Least(limit, queueSize), |Stale(states[0], age)|;
    if k > 0 {
      RoundsShrink(states, age, cutoffs, limit, queueSize, k - 1);
      assert Round(states[k - 1], states[k], age, cutoffs[k], limit, queueSize);
      RoundShrinks(states[k - 1], states[k], age, cutoffs[k], limit, queueSize);
      assert k * m == (k - 1) * m + m;
    }
  }

  function Ceiling(n: nat, m: nat): nat
    requires m >= 1
  {
    (n + m - 1) / m
  }

  lemma DivBounds(x: nat, m: nat)
    requires m >= 1
    ensures x / m * m <= x < x / m * m + m
  {
    assert x == x / m * m + x % m;
  }

  /** The least number of batches of m that hold n orders. */
  lemma CeilingIsLeast(n: nat, m: nat, k: nat)
    requires m >= 1
    ensures k * m >= n <==> k >= Ceiling(n, m)
  {
    var q := Ceiling(n, m);
    DivBounds(n + m - 1, m);
    if k >= q {
      Retry.MulMono(q, k, m);
    } else {
      Retry.MulMono(k + 1, q, m);
      Retry.Distribute(k, -1, m);
    }
  }

  /** The sweeper asks for the configured batch if that is positive, and for a queue's worth otherwise. */
  lemma BatchAsked(configured: int, queueSize: nat)
    ensures configured > 0 ==> BatchSize(configured, queueSize) == configured
    ensures configured <= 0 ==> BatchSize(configured, queueSize) == queueSize
    ensures queueSize >= 1 ==> BatchSize(configured, queueSize) >= 1
  {
  }

  /** The sweeps it takes to finalise the orders that are stale now. */
  function SweepsFor(pending: map<nat, int>, age: int, configured: int, queueSize: nat): nat
    requires queueSize >= 1
  {
    Ceiling(|Stale(pending, age)|, Least(BatchSize(configured, queueSize), queueSize))
  }

  /** N stale orders are all finalised after ceil(N / min(batch, queue size)) sweeps. */
  lemma SweptInTime(states: seq<map<nat, int>>, age: int, cutoffs: seq<int>, configured: int, queueSize: nat)
    requires queueSize >= 1
    requires Rounds(states, age, cutoffs, BatchSize(configured, queueSize), queueSize)
    requires |states| > SweepsFor(states[0], age, configured, queueSize)
    ensures Stale(states[SweepsFor(states[0], age, configured, queueSize)], age) == {}
  {
    var limit := BatchSize(configured, queueSize);
    var m, n := Least(limit, queueSize), |Stale(states[0], age)|;
    var k := Ceiling(n, m);
    CeilingIsLeast(n, m, k);
    RoundsShrink(states, age, cutoffs, limit, queueSize, k);
  }

  // ---------------------------------------------------------------- rounds of real workers

  /** The pending orders of a fulfilment state, with the creation times of all orders ever made. */
  function PendingView(db: Db, created: map<nat, int>): map<nat, int> {
    map o | o in created && o in db.orders && !Fulfillment.NoPending(db, o) :: created[o]
  }

  /** A worker has been through this order without a store error. */
  predicate Handled(s: Fulfillment.World, o: nat) {
    exists w :: w in s.workers && s.workers[w] == Fulfillment.Done(o, true)
  }

  lemma HandledSettles(c: Fulfillment.Config, s: Fulfillment.World, o: nat)
    requires Fulfillment.PcsOk(c, s) && Handled(s, o)
    ensures Fulfillment.NoPending(s.db, o)
  {
    var w :| w in s.workers && s.workers[w] == Fulfillment.Done(o, true);
    assert Fulfillment.PcOk(c, s, s.workers[w]);
  }

  lemma SettledStays(c: Fulfillment.Config, s: Fulfillment.World, s': Fulfillment.World, o: nat)
    requires Fulfillment.Grows(s.db, s'.db) && o in s.db.orders && Fulfillment.NoPending(s.db, o)
    ensures Fulfillment.NoPending(s'.db, o)
  {
    Fulfillment.PcCarries(c, s, s.(db := s'.db), Fulfillment.Done(o, true));
  }

  predicate AllHandled(s: Fulfillment.World, ids: seq<nat>) {
    forall o :: o in ids ==> Handled(s, o)
  }

  /** Orders that are not in s yet are not older than age. */
  predicate NewOnesAreYoung(s: Fulfillment.World, later: Fulfillment.World, created: map<nat, int>, age: int) {
    forall o :: o in created && o in later.db.orders && o !in s.db.orders ==> created[o] >= age
  }

  lemma StaleLeft(c: Fulfillment.Config, s: Fulfillment.World, later: Fulfillment.World,
                  created: map<nat, int>, age: int, accepted: seq<nat>, o: nat)
    requires Fulfillment.Grows(s.db, later.db) && Fulfillment.PcsOk(c, later)
    requires AllHandled(later, accepted) && NewOnesAreYoung(s, later, created, age)
    requires o in Stale(PendingView(later.db, created), age)
    ensures o in Stale(PendingView(s.db, created), age) && o !in accepted
  {
    if o in accepted {
      HandledSettles(c, later, o);
    }
    if o in s.db.orders && Fulfillment.NoPending(s.db, o) {
      SettledStays(c, s, later, o);
    }
  }

  /**
   Any stretch of the fulfilment protocol in which every accepted order got a worker that
   finished without a store error is a round, whatever else ran beside it.
   */
  lemma HandledIsRound(c: Fulfillment.Config, supply: map<int, int>, s: Fulfillment.World,
                       acts: seq<Fulfillment.Action>,
                       created: map<nat, int>, age: int, cutoff: int, limit: nat, queueSize: nat,
                       ids: seq<nat>, accepted: seq<nat>)
    requires Fulfillment.Reaches(c, supply, s) && Fulfillment.Exec(c, s, acts).Some?
    requires IsBatch(PendingView(s.db, created), cutoff, limit, ids) && Sure(ids, queueSize) <= accepted
    requires AllHandled(Fulfillment.Exec(c, s, acts).value, accepted)
    requires NewOnesAreYoung(s, Fulfillment.Exec(c, s, acts).value, created, age)
    ensures Round(PendingView(s.db, created), PendingView(Fulfillment.Exec(c, s, acts).value.db, created),
                  age, cutoff, limit, queueSize)
  {
    var later := Fulfillment.Exec(c, s, acts).value;
    RunGrows(c, supply, s, acts);
    var was, now := PendingView(s.db, created), PendingView(later.db, created);
    forall o | o in Stale(now, age) ensures o in Stale(was, age) - Members(accepted) {
      StaleLeft(c, s, later, created, age, accepted, o);
    }
    assert SweptBatch(was, now, age, Sure(ids, queueSize), accepted);
  }

  lemma RunGrows(c: Fulfillment.Config, supply: map<int, int>, s: Fulfillment.World, acts: seq<Fulfillment.Action>)
    requires Fulfillment.Reaches(c, supply, s) && Fulfillment.Exec(c, s, acts).Some?
    ensures Fulfillment.Grows(s.db, Fulfillment.Exec(c, s, acts).value.db)
    ensures Fulfillment.PcsOk(c, Fulfillment.Exec(c, s, acts).value)
  {
    Fulfillment.ReachesInv(c, supply, s);
    Fulfillment.RunInv(c, supply, s, acts);
  }

  /** From s to later, the orders a sweep at this cutoff is sure to enqueue got a worker that finished cleanly. */
  ghost predicate Swept(c: Fulfillment.Config, s: Fulfillment.World, later: Fulfillment.World,
                        created: map<nat, int>, age: int, cutoff: int, limit: nat, queueSize: nat) {
    && (exists acts :: Fulfillment.Exec(c, s, acts) == Some(later))
    && (exists ids ::
          IsBatch(PendingView(s.db, created), cutoff, limit, ids) && AllHandled(later, Sure(ids, queueSize)))
    && NewOnesAreYoung(s, later, created, age)
  }

  function Views(worlds: seq<Fulfillment.World>, created: map<nat, int>): seq<map<nat, int>> {
    seq(|worlds|, k requires 0 <= k < |worlds| => PendingView(worlds[k].db, created))
  }

  lemma SweptIsRound(c: Fulfillment.Config, supply: map<int, int>, s: Fulfillment.World, later: Fulfillment.World,
                     created: map<nat, int>, age: int, cutoff: int, limit: nat, queueSize: nat)
    requires Fulfillment.Reaches(c, supply, s) && Swept(c, s, later, created, age, cutoff, limit, queueSize)
    ensures Round(PendingView(s.db, created), PendingView(later.db, created), age, cutoff, limit, queueSize)
  {
    var acts :| Fulfillment.Exec(c, s, acts) == Some(later);
    var ids :| IsBatch(PendingView(s.db, created), cutoff, limit, ids) && AllHandled(later, Sure(ids, queueSize));
    HandledIsRound(c, supply, s, acts, created, age, cutoff, limit, queueSize, ids, Sure(ids, queueSize));
  }

  /**
   The bound for the fulfilment protocol itself. Each sweep has its own, later cutoff, so orders
   keep going stale; still the N that are stale at age all have their payment finalised after any
   number of sweeps whose batches, capped by the queue's size, add up to N, with clean workers in
   between.
   */
  lemma WorkersSettleInTime(c: Fulfillment.Config, supply: map<int, int>, worlds: seq<Fulfillment.World>,
                            created: map<nat, int>, age: int, cutoffs: seq<int>, configured: int, queueSize: nat,
                            batch: nat, o: nat)
    requires batch == (if configured > 0 then configured else queueSize)
    requires worlds != [] && |cutoffs| == |worlds|
    requires forall k :: 0 <= k < |worlds| ==> Fulfillment.Reaches(c, supply, worlds[k])
    requires forall k :: 0 < k < |worlds| ==>
               age <= cutoffs[k] && Swept(c, worlds[k - 1], worlds[k], created, age, cutoffs[k], batch, queueSize)
    requires (|worlds| - 1) * (if batch <= queueSize then batch else queueSize) >=
             |Stale(PendingView(worlds[0].db, created), age)|
    requires o in created && created[o] < age && o in worlds[|worlds| - 1].db.orders
    ensures Fulfillment.NoPending(worlds[|worlds| - 1].db, o)
  {
    var states := Views(worlds, created);
    forall k | 0 < k < |states| ensures Round(states[k - 1], states[k], age, cutoffs[k], batch, queueSize) {
      SweptIsRound(c, supply, worlds[k - 1], worlds[k], created, age, cutoffs[k], batch, queueSize);
    }
    assert states[0] == PendingView(worlds[0].db, created);
    RoundsShrink(states, age, cutoffs, batch, queueSize, |worlds| - 1);
    assert Stale(states[|worlds| - 1], age) == {};
    assert o !in Stale(states[|worlds| - 1], age);
  }
}
