/**
 One worker taking one order from pending to a terminal state, as it is written: load, charge
 with bounded retries, finalise, notify. Each call of a store or of the gateway is one step of
 the fulfilment protocol, and the whole is a run of it, so what holds of every run of the
 protocol holds here.
 */
module Worker {
  import opened Orders
  import opened Repository
  import opened Fulfillment
  import opened Gateway
  import opened Retry

  datatype ChargeResult = Approved(txn: string) | Rejected

  /**
   What the outside decides: at attempt k the deadline passes first, the draw says fail, the new
   transaction id, the jitter.
   */
  datatype Luck = Luck(cancelled: nat -> bool, fails: nat -> bool, newTxn: nat -> string, draw: (nat, int) -> int)

  ghost predicate FairDraw(luck: Luck) {
    forall a: nat, n: int :: n > 0 ==> 0 <= luck.draw(a, n) < n
  }

  function OutcomeOf(r: ChargeResult): Outcome {
    if r.Approved? then Charged(r.txn) else Declined
  }

  /** Where the protocol has the worker when it is about to make this attempt, or has none left. */
  function Retrying(c: Config, pid: nat, pay: Payment, attempt: nat): Pc {
    if attempt <= c.maxRetries then Charging(pid, pay.order, pay.key, pay.amount, attempt)
    else Persisting(pid, pay.order, if c.maxRetries <= 0 then Charged("") else Declined)
  }

  /** Whether the charge came back without an error: the last attempt was accepted, or none was configured. */
  predicate ChargedFor(c: Config, replies: seq<Reply>) {
    c.maxRetries <= 0 || (replies != [] && replies[|replies| - 1].Accepted?)
  }

  predicate Ended(pay: Payment, charged: bool) {
    pay.status == if charged then Paid else Failed
  }

  // ---------------------------------------------------------------- runs, one step at a time

  ghost predicate Follows(c: Config, s: World, s': World) {
    exists acts :: Exec(c, s, acts) == Some(s')
  }

  lemma FollowsSelf(c: Config, s: World)
    ensures Follows(c, s, s)
  {
    assert Exec(c, s, []) == Some(s);
  }

  lemma {:induction false} ExecConcat(c: Config, s: World, first: seq<Action>, second: seq<Action>)
    requires Exec(c, s, first).Some?
    ensures Exec(c, s, first + second) == Exec(c, Exec(c, s, first).value, second)
    decreases |first|
  {
    if first == [] {
      assert first + second == second;
    } else {
      assert (first + second)[1..] == first[1..] + second;
      ExecConcat(c, Apply(c, s, first[0]), first[1..], second);
    }
  }

  lemma FollowsTransitive(c: Config, a: World, b: World, d: World)
    requires Follows(c, a, b) && Follows(c, b, d)
    ensures Follows(c, a, d)
  {
    var first :| Exec(c, a, first) == Some(b);
    var second :| Exec(c, b, second) == Some(d);
    ExecConcat(c, a, first, second);
  }

  lemma FollowsStep(c: Config, s: World, s': World, a: Action)
    requires Follows(c, s, s') && Enabled(c, s', a)
    ensures Follows(c, s, Apply(c, s', a))
  {
    assert [a][1..] == [];
    assert Exec(c, s', [a]) == Some(Apply(c, s', a));
    FollowsTransitive(c, s, s', Apply(c, s', a));
  }

  lemma FollowsInv(c: Config, supply: map<int, int>, s: World, s': World)
    requires Follows(c, s, s') && Inv(c, supply, s)
    ensures Inv(c, supply, s')
  {
    var acts :| Exec(c, s, acts) == Some(s');
    RunInv(c, supply, s, acts);
  }

  predicate OnFile(db: Db) {
    forall pid :: pid in db.payments ==> db.payments[pid].order in db.orders
  }

  lemma InvOnFile(c: Config, supply: map<int, int>, s: World)
    requires Inv(c, supply, s)
    ensures OnFile(s.db)
  {
    forall pid | pid in s.db.payments ensures s.db.payments[pid].order in s.db.orders {
      assert OrderIntact(s.db.stock, s.db, pid);
    }
  }

  lemma InvDone(c: Config, supply: map<int, int>, s: World, w: nat, order: nat)
    requires Inv(c, supply, s) && w in s.workers && s.workers[w] == Done(order, true)
    ensures NoPending(s.db, order)
  {
    assert PcOk(c, s, s.workers[w]);
  }

  /** Only the gateway's side and the workers differ. */
  predicate SameRecords(a: World, b: World) {
    && b.db == a.db && b.nextOrder == a.nextOrder && b.nextPayment == a.nextPayment
    && b.notes == a.notes && b.wins == a.wins && b.dropped == a.dropped
  }

  /** From s to s' the protocol ran, moved worker w to pc and touched no record. */
  ghost predicate MovedTo(c: Config, s: World, s': World, w: nat, pc: Pc) {
    Follows(c, s, s') && SameRecords(s, s') && s'.workers == s.workers[w := pc]
  }

  lemma MovedOn(c: Config, s: World, s1: World, s2: World, w: nat, pc1: Pc, pc2: Pc)
    requires MovedTo(c, s, s1, w, pc1) && MovedTo(c, s1, s2, w, pc2)
    ensures MovedTo(c, s, s2, w, pc2)
  {
    FollowsTransitive(c, s, s1, s2);
  }

  /** One attempt, in the protocol and at the gateway. */
  lemma AttemptSteps(c: Config, s: World, w: nat, pid: nat, pay: Payment, k: nat, reply: Reply)
    requires 1 <= k <= c.maxRetries && w in s.workers && s.workers[w] == Retrying(c, pid, pay, k)
    requires Enabled(c, s, Attempt(w, reply))
    ensures var s' := Apply(c, s, Attempt(w, reply));
            && SameRecords(s, s')
            && s'.workers == s.workers[w := if reply.Accepted? then Persisting(pid, pay.order, Charged(reply.txn))
                                       else Retrying(c, pid, pay, k + 1)]
            && s'.charged ==
               if reply.Accepted? && pay.key !in s.charged then s.charged[pay.key := reply.txn] else s.charged
  {
  }

  /** Starting and loading, in the protocol. */
  lemma LoadSteps(c: Config, s: World, w: nat, order: nat, found: Option<nat>, err: bool) returns (s': World)
    requires w !in s.workers && order in s.db.orders && (c.overlap || !Busy(s, order))
    requires err ==> found == None
    requires !err && found.Some? ==> IsPending(s.db, found.value) && s.db.payments[found.value].order == order
    requires !err && found.None? ==> NoPending(s.db, order)
    ensures Follows(c, s, s')
    ensures s' == s.(workers := s.workers[w := if found.None? then Done(order, !err)
                                               else AfterLoad(c, found.value, s.db.payments[found.value])])
  {
    FollowsSelf(c, s);
    FollowsStep(c, s, s, Spawn(w, order));
    s' := LoadStep(c, s, w, order, found, err);
  }

  lemma LoadStep(c: Config, s: World, w: nat, order: nat, found: Option<nat>, err: bool) returns (s': World)
    requires err ==> found == None
    requires !err && found.Some? ==> IsPending(s.db, found.value) && s.db.payments[found.value].order == order
    requires !err && found.None? ==> NoPending(s.db, order)
    requires Follows(c, s, Goto(s, w, Loading(order)))
    ensures Follows(c, s, s')
    ensures s' == Goto(s, w, if found.None? then Done(order, !err)
                             else AfterLoad(c, found.value, s.db.payments[found.value]))
  {
    var started := Goto(s, w, Loading(order));
    var step := if err then LoadError(w) else Load(w, found);
    FollowsStep(c, s, started, step);
    s' := Apply(c, started, step);
    assert s'.workers == s.workers[w := s'.workers[w]];
  }

  /** Recording the outcome and notifying, in the protocol. */
  lemma FinishSteps(c: Config, s: World, w: nat, pid: nat, order: nat, o: Outcome, err: bool, recorded: bool)
      returns (s': World)
    requires w in s.workers && s.workers[w] == Persisting(pid, order, o)
    ensures Follows(c, s, s') && s'.workers == s.workers[w := Done(order, !err)]
    ensures s'.charged == s.charged && s'.nextOrder == s.nextOrder && s'.nextPayment == s.nextPayment
    ensures s'.db == if err then s.db else Finalised(s.db, pid, o)
    ensures s'.notes == s.notes + if !err && recorded && IsPending(s.db, pid) then [Note(order, o.Charged?)] else []
  {
    FollowsSelf(c, s);
    var step := if err then PersistError(w) else Persist(w);
    FollowsStep(c, s, s, step);
    s' := Apply(c, s, step);
    if !err && IsPending(s.db, pid) {
      FollowsStep(c, s, s', Notify(w, recorded));
      s' := Apply(c, s', Notify(w, recorded));
    }
  }

  /** What the gateway answers when its map knows this of the key, and the outside decides as luck says. */
  predicate Answers(luck: Luck, known: Option<string>, k: nat, reply: Reply) {
    && (reply == TimedOut <==> luck.cancelled(k))
    && (reply == Transient <==> !luck.cancelled(k) && known.None? && luck.fails(k))
    && (reply.Accepted? ==> reply.txn == if known.Some? then known.value else luck.newTxn(k))
  }

  function Lookup(charged: map<string, string>, key: string): Option<string> {
    if key in charged then Some(charged[key]) else None
  }

  /** A wait after this attempt: between half the capped delay and all of it. */
  predicate IsWait(base: int, cap: int, attempt: nat, wait: int)
    requires attempt >= 1
  {
    var d := Min(base * Pow2(attempt - 1), cap);
    0 <= d / 2 <= wait <= d
  }

  predicate AllWaits(base: int, cap: int, waits: seq<int>) {
    forall i :: 0 <= i < |waits| ==> IsWait(base, cap, i + 1, waits[i])
  }

  function Total(waits: seq<int>): int {
    if waits == [] then 0 else Total(waits[..|waits| - 1]) + waits[|waits| - 1]
  }

  /** Such waits add up to at most the sum of the capped delays, and to at least half of it. */
  lemma {:induction false} WaitsAddUp(base: int, cap: int, waits: seq<int>)
    requires AllWaits(base, cap, waits)
    ensures SleepBound(base, cap, |waits|) <= 2 * Total(waits) + |waits|
              && 0 <= Total(waits) <= SleepBound(base, cap, |waits|)
  {
    if waits != [] {
      var n := |waits| - 1;
      WaitsAddUp(base, cap, waits[..n]);
      assert IsWait(base, cap, n + 1, waits[n]);
    }
  }

  /** The first attempt that gets through, if one of the first n does. */
  predicate FirstThrough(luck: Luck, known: Option<string>, n: int, k: nat) {
    && 1 <= k <= n && !luck.cancelled(k) && (known.Some? || !luck.fails(k))
    && forall j :: 1 <= j < k ==> luck.cancelled(j) || (known.None? && luck.fails(j))
  }

  /** How a payment must end: paid with the id of the first attempt that gets through, or failed if none does. */
  ghost predicate Decided(maxRetries: int, luck: Luck, known: Option<string>, pay: Payment) {
    if maxRetries <= 0 then pay.status == Paid && pay.txn == Some("")
    else
      || (pay.status == Paid &&
          exists k: nat :: FirstThrough(luck, known, maxRetries, k) &&
                      pay.txn == Some(if known.Some? then known.value else luck.newTxn(k)))
      || (pay.status == Failed && forall k :: 1 <= k <= maxRetries ==>
          luck.cancelled(k) || (known.None? && luck.fails(k)))
  }

  predicate AllAnswered(luck: Luck, known: Option<string>, replies: seq<Reply>) {
    forall k :: 0 <= k < |replies| ==> Answers(luck, known, k + 1, replies[k])
  }

  predicate NoneAccepted(replies: seq<Reply>) {
    forall k :: 0 <= k < |replies| ==> !replies[k].Accepted?
  }

  lemma OneMoreReply(luck: Luck, known: Option<string>, replies: seq<Reply>, reply: Reply)
    requires AllAnswered(luck, known, replies) && NoneAccepted(replies) && Answers(luck, known, |replies| + 1, reply)
    ensures AllAnswered(luck, known, replies + [reply])
    ensures (replies + [reply])[..|replies + [reply]| - 1] == replies
    ensures !reply.Accepted? ==> NoneAccepted(replies + [reply])
  {
  }

  lemma RepliesDecide(maxRetries: int, luck: Luck, known: Option<string>, replies: seq<Reply>, r: ChargeResult,
                      pay: Payment)
    requires r.Approved? ==> pay.status == Paid && pay.txn == Some(r.txn)
    requires r.Rejected? ==> pay.status == Failed
    requires AllAnswered(luck, known, replies)
    requires maxRetries <= 0 ==> r == Approved("")
    requires maxRetries >= 1 ==> 1 <= |replies| <= maxRetries
    requires forall k :: 0 <= k < |replies| - 1 ==> !replies[k].Accepted?
    requires maxRetries >= 1 && r.Approved? ==> replies[|replies| - 1] == Accepted(r.txn)
    requires maxRetries >= 1 && r.Rejected? ==> |replies| == maxRetries && !replies[|replies| - 1].Accepted?
    ensures Decided(maxRetries, luck, known, pay)
  {
    if maxRetries >= 1 {
      forall j: nat | 1 <= j < |replies| ensures luck.cancelled(j) || (known.None? && luck.fails(j)) {
        assert Answers(luck, known, j - 1 + 1, replies[j - 1]);
      }
      var last := |replies| - 1;
      assert Answers(luck, known, last + 1, replies[last]);
      if r.Approved? {
        assert FirstThrough(luck, known, maxRetries, last + 1);
      }
    }
  }

  lemma InvOnePayment(c: Config, supply: map<int, int>, s: World, order: nat)
    requires Inv(c, supply, s)
    ensures forall p, q :: p in s.db.payments && q in s.db.payments &&
                           s.db.payments[p].order == order && s.db.payments[q].order == order ==>
              p == q
  {
  }

  /**
   A payment is paid if and only if one of the attempts gets through: its deadline does not pass,
   and the key is charged already or the gateway does not fail. Its id is then the one the key
   was charged with, or the new one of the first attempt that got through. Otherwise it is failed.
   */
  ghost predicate DecidedRight(maxRetries: int, luck: Luck, charged: map<string, string>, key: string, pay: Payment) {
    && pay.status in {Paid, Failed}
    && (pay.status == Paid <==>
          exists k: nat :: 1 <= k <= maxRetries && !luck.cancelled(k) && (key in charged || !luck.fails(k)))
    && (pay.status == Paid ==>
          exists k: nat :: 1 <= k <= maxRetries && !luck.cancelled(k) && (key in charged || !luck.fails(k)) &&
            (forall j: nat :: 1 <= j < k ==> luck.cancelled(j) || (key !in charged && luck.fails(j))) &&
            pay.txn == Some(if key in charged then charged[key] else luck.newTxn(k)))
  }

  /** The decision, written out. */
  lemma DecidedMeans(maxRetries: int, luck: Luck, charged: map<string, string>, key: string, pay: Payment)
    requires maxRetries >= 1 && Decided(maxRetries, luck, Lookup(charged, key), pay)
    ensures DecidedRight(maxRetries, luck, charged, key, pay)
  {
    var known := Lookup(charged, key);
    if pay.status == Paid {
      var k: nat :| FirstThrough(luck, known, maxRetries, k) &&
               pay.txn == Some(if known.Some? then known.value else luck.newTxn(k));
      assert 1 <= k <= maxRetries && !luck.cancelled(k) && (key in charged || !luck.fails(k));
    }
  }

  lemma FinalisedPayment(db: Db, pid: nat, r: ChargeResult)
    requires IsPending(db, pid)
    ensures var db' := Finalised(db, pid, OutcomeOf(r));
            && pid in db'.payments && db'.payments[pid] == Resolved(db.payments[pid], OutcomeOf(r))
            && db'.payments[pid].order == db.payments[pid].order && Ended(db'.payments[pid], r.Approved?)
  {
  }

  class Fulfiller {
    const c: Config
    const base: int
    const cap: int
    const repo: OrderRepository
    const gw: FakeGateway
    var notes: seq<Note>
    ghost var world: World

    constructor (c: Config, base: int, cap: int, repo: OrderRepository, gw: FakeGateway, ghost world: World)
      requires world.notes == [] && world.db == repo.Rows() && world.nextOrder == repo.nextOrder
      requires world.nextPayment == repo.nextPayment
      requires world.charged == gw.charged && c.users == repo.users
      ensures this.c == c && this.base == base && this.cap == cap && this.repo == repo && this.gw == gw
      ensures Linked() && notes == [] && this.world == world
    {
      this.c, this.base, this.cap, this.repo, this.gw := c, base, cap, repo, gw;
      notes := [];
      this.world := world;
    }

    /** The stores the worker sees are the ones of the protocol's state. */
    ghost predicate Linked()
      reads this, repo, gw
    {
      && world.db == repo.Rows() && world.nextOrder == repo.nextOrder && world.nextPayment == repo.nextPayment
      && world.charged == gw.charged && world.notes == notes && c.users == repo.users
    }

    /** One call of the gateway. */
    method Try(ghost w: nat, ghost pid: nat, pay: Payment, attempt: nat, luck: Luck) returns (reply: Reply)
      requires Linked() && 1 <= attempt <= c.maxRetries
      requires luck.cancelled(attempt) ==> c.timeouts
      requires w in world.workers && world.workers[w] == Retrying(c, pid, pay, attempt)
      modifies gw, `world
      ensures Linked()
      ensures MovedTo(c, old(world), world, w,
                      if reply.Accepted? then Persisting(pid, pay.order, Charged(reply.txn))
                      else Retrying(c, pid, pay, attempt + 1))
      ensures Answers(luck, old(Lookup(gw.charged, pay.key)), attempt, reply)
      ensures gw.charged == if reply.Accepted? then old(gw.charged)[pay.key := reply.txn] else old(gw.charged)
    {
      reply := gw.Charge(pay.key, luck.cancelled(attempt), luck.fails(attempt), luck.newTxn(attempt));
      AttemptSteps(c, world, w, pid, pay, attempt, reply);
      FollowsSelf(c, world);
      FollowsStep(c, world, world, Attempt(w, reply));
      world := Apply(c, world, Attempt(w, reply));
    }

    /** Sleeps after a failed attempt. */
    method Pause(attempt: nat, luck: Luck, waits: seq<int>) returns (more: seq<int>)
      requires attempt >= 1 && FairDraw(luck) && |waits| == attempt - 1
      ensures |more| == attempt
      ensures Representable(base, cap) && BackoffExact(base, cap) && AllWaits(base, cap, waits) ==>
                AllWaits(base, cap, more)
    {
      var wait := Wait(attempt, luck);
      more := waits + [wait];
    }

    /** The retry loop. */
    method Attempts(ghost w: nat, ghost pid: nat, pay: Payment, luck: Luck)
        returns (r: ChargeResult, replies: seq<Reply>, waits: seq<int>)
      requires Linked() && FairDraw(luck)
      requires c.timeouts || forall k :: !luck.cancelled(k)
      requires w in world.workers && world.workers[w] == AfterLoad(c, pid, pay)
      modifies gw, `world
      ensures Linked() && MovedTo(c, old(world), world, w, Persisting(pid, pay.order, OutcomeOf(r)))
      ensures c.maxRetries <= 0 ==> r == Approved("") && replies == [] && gw.charged == old(gw.charged) && waits == []
      ensures c.maxRetries >= 1 ==> 1 <= |replies| <= c.maxRetries
      ensures c.maxRetries >= 1 && r.Approved? ==>
                NoneAccepted(replies[..|replies| - 1]) && replies[|replies| - 1] == Accepted(r.txn)
      ensures c.maxRetries >= 1 && r.Rejected? ==> |replies| == c.maxRetries && NoneAccepted(replies)
      ensures AllAnswered(luck, old(Lookup(gw.charged, pay.key)), replies)
      ensures c.maxRetries >= 1 ==>
                gw.charged == if r.Approved? then old(gw.charged)[pay.key := r.txn] else old(gw.charged)
      ensures c.maxRetries >= 1 ==> |waits| == |replies| - 1
      ensures Representable(base, cap) && BackoffExact(base, cap) ==> AllWaits(base, cap, waits)
    {
      ghost var known := Lookup(gw.charged, pay.key);
      FollowsSelf(c, world);
      replies, waits := [], [];
      var lastErr := false;
      var attempt := 1;
      while attempt <= c.maxRetries
        invariant 1 <= attempt && (attempt <= c.maxRetries + 1 || attempt == 1)
        invariant |replies| == attempt - 1 && (lastErr <==> attempt > 1)
        invariant AllAnswered(luck, known, replies) && NoneAccepted(replies)
        invariant Linked() && MovedTo(c, old(world), world, w, Retrying(c, pid, pay, attempt))
        invariant gw.charged == old(gw.charged)
        invariant |waits| == if 2 <= attempt == c.maxRetries + 1 then attempt - 2 else attempt - 1
        invariant Representable(base, cap) && BackoffExact(base, cap) ==> AllWaits(base, cap, waits)
      {
        ghost var before := world;
        var reply := Try(w, pid, pay, attempt, luck);
        MovedOn(c, old(world), before, world, w, Retrying(c, pid, pay, attempt), world.workers[w]);
        OneMoreReply(luck, known, replies, reply);
        replies := replies + [reply];
        if reply.Accepted? {
          return Approved(reply.txn), replies, waits;
        }
        lastErr := true;
        if attempt < c.maxRetries {
          waits := Pause(attempt, luck, waits);
        }
        attempt := attempt + 1;
      }
      r := if lastErr then Rejected else Approved("");
    }

    /**
     Calls the gateway at most MaxRetries times and stops at the first success. With at least
     one attempt it succeeds exactly when some attempt did. With none it makes no call and still
     returns no error. The waits add up to at most the sum of the capped delays.
     */
    method Charge(ghost w: nat, ghost pid: nat, pay: Payment, luck: Luck)
        returns (r: ChargeResult, replies: seq<Reply>, slept: int)
      requires Linked() && FairDraw(luck)
      requires c.timeouts || forall k :: !luck.cancelled(k)
      requires w in world.workers && world.workers[w] == AfterLoad(c, pid, pay)
      modifies gw, `world
      ensures Linked() && MovedTo(c, old(world), world, w, Persisting(pid, pay.order, OutcomeOf(r)))
      ensures c.maxRetries <= 0 ==> r == Approved("") && replies == [] && gw.charged == old(gw.charged) && slept == 0
      ensures c.maxRetries >= 1 ==> 1 <= |replies| <= c.maxRetries
      ensures forall k :: 0 <= k < |replies| - 1 ==> !replies[k].Accepted?
      ensures c.maxRetries >= 1 && r.Approved? ==> replies[|replies| - 1] == Accepted(r.txn)
      ensures c.maxRetries >= 1 && r.Rejected? ==> |replies| == c.maxRetries && !replies[|replies| - 1].Accepted?
      ensures forall k :: 0 <= k < |replies| ==>
                && (replies[k] == TimedOut <==> luck.cancelled(k + 1))
                && (replies[k] == Transient <==>
                      !luck.cancelled(k + 1) && pay.key !in old(gw.charged) && luck.fails(k + 1))
                && (replies[k].Accepted? ==>
                      replies[k].txn == if pay.key in old(gw.charged) then old(gw.charged)[pay.key]
                          else luck.newTxn(k + 1))
      ensures c.maxRetries >= 1 ==>
                gw.charged == if r.Approved? then old(gw.charged)[pay.key := r.txn] else old(gw.charged)
      ensures c.maxRetries >= 1 && Representable(base, cap) && BackoffExact(base, cap) ==>
                && SleepBound(base, cap, |replies| - 1) <= 2 * slept + (|replies| - 1)
                && 0 <= slept <= SleepBound(base, cap, |replies| - 1)
    {
      ghost var known := Lookup(gw.charged, pay.key);
      var waits;
      r, replies, waits := Attempts(w, pid, pay, luck);
      slept := Total(waits);
      if Representable(base, cap) && BackoffExact(base, cap) {
        WaitsAddUp(base, cap, waits);
      }
      forall k | 0 <= k < |replies|
        ensures Answers(luck, known, k + 1, replies[k])
      {
      }
    }

    /** The wait after a failed attempt: half the capped delay and a draw from nothing to that half. */
    method Wait(attempt: nat, luck: Luck) returns (wait: int)
      requires attempt >= 1 && FairDraw(luck)
      ensures Representable(base, cap) && BackoffExact(base, cap) ==>
                var d := Min(base * Pow2(attempt - 1), cap);
                wait == if d >= 2 then d / 2 + luck.draw(attempt, d / 2 + 1) else d
      ensures Representable(base, cap) && BackoffExact(base, cap) ==>
                var d := Min(base * Pow2(attempt - 1), cap); 0 <= d / 2 <= wait <= d
    {
      var d := Delay(base, cap, attempt);
      wait := Jittered(d, luck.draw(attempt, Half(d) + 1));
      if Representable(base, cap) && BackoffExact(base, cap) {
        assert d == Min(base * Pow2(attempt - 1), cap);
        MulSign(base, Pow2(attempt - 1));
        JitterRange(d, luck.draw(attempt, Half(d) + 1));
      }
    }

    /** Records the outcome and, if this call made the transition, notifies. */
    method Finish(ghost w: nat, pid: nat, order: nat, r: ChargeResult, scan: seq<Item>, fault: Option<nat>,
                  recorded: bool) returns (clean: bool)
      requires Linked() && w in world.workers && world.workers[w] == Persisting(pid, order, OutcomeOf(r))
      requires pid in repo.payments && repo.payments[pid].order == order
      requires multiset(scan) == multiset(if order in repo.items then repo.items[order] else [])
      modifies this`notes, this`world, repo`stock, repo`orders, repo`payments
      ensures Linked() && Follows(c, old(world), world)
      ensures world.workers == old(world.workers)[w := Done(order, clean)] && world.charged == old(world.charged)
      ensures fault == None ==> clean
      ensures !clean ==> repo.Rows() == old(repo.Rows()) && notes == old(notes)
      ensures clean ==> repo.Rows() == Finalised(old(repo.Rows()), pid, OutcomeOf(r))
      ensures clean ==>
                notes == old(notes) +
                         if recorded && old(IsPending(repo.Rows(), pid)) then [Note(order, r.Approved?)] else []
    {
      ghost var before := world;
      var transitioned, err;
      match r {
        case Rejected => transitioned, err := repo.FailCancelAndRestock(pid, order, scan, fault);
        case Approved(txn) => transitioned, err := repo.MarkPaidAndConfirm(pid, order, txn, fault);
      }
      world := FinishSteps(c, before, w, pid, order, OutcomeOf(r), err, recorded);
      if !err && transitioned && recorded {
        notes := notes + [Note(order, r.Approved?)];
      }
      clean := !err;
    }

    /** Loads the order's pending payment: the first two steps of the protocol, if the order exists. */
    method LoadPending(ghost w: nat, order: nat, fault: bool) returns (found: Option<nat>, err: bool)
      requires Linked() && OnFile(repo.Rows()) && w !in world.workers && (c.overlap || !Busy(world, order))
      modifies `world
      ensures Linked() && Follows(c, old(world), world) && SameRecords(old(world), world)
      ensures err == fault && (err ==> found == None)
      ensures found.Some? ==>
                IsPending(repo.Rows(), found.value) && repo.payments[found.value].order == order && order in repo.orders
      ensures !err && found.None? ==> NoPending(repo.Rows(), order)
      ensures order in repo.orders ==>
                world.workers == old(world.workers)[w := if found.None? then Done(order, !err)
                                                    else AfterLoad(c, found.value, repo.payments[found.value])]
    {
      found, err := repo.GetPendingByOrderID(order, fault);
      FollowsSelf(c, world);
      if order in repo.orders {
        world := LoadSteps(c, world, w, order, found, err);
      }
    }

    /** Charges, and with that decides how the payment ends. */
    method Decide(ghost w: nat, ghost pid: nat, pay: Payment, luck: Luck) returns (r: ChargeResult, replies: seq<Reply>)
      requires Linked() && FairDraw(luck)
      requires c.timeouts || forall k :: !luck.cancelled(k)
      requires w in world.workers && world.workers[w] == AfterLoad(c, pid, pay)
      modifies gw, `world
      ensures Linked() && MovedTo(c, old(world), world, w, Persisting(pid, pay.order, OutcomeOf(r)))
      ensures ChargedFor(c, replies) <==> r.Approved?
      ensures Decided(c.maxRetries, luck, old(Lookup(gw.charged, pay.key)), Resolved(pay, OutcomeOf(r)))
    {
      ghost var known := Lookup(gw.charged, pay.key);
      var slept;
      r, replies, slept := Charge(w, pid, pay, luck);
      RepliesDecide(c.maxRetries, luck, known, replies, r, Resolved(pay, OutcomeOf(r)));
    }

    /** Charges a loaded payment and finishes. */
    method Settle(ghost w: nat, pid: nat, order: nat, luck: Luck, scan: seq<Item>, fault: Option<nat>, recorded: bool)
      returns (clean: bool, replies: seq<Reply>)
      requires Linked() && FairDraw(luck) && IsPending(repo.Rows(), pid) && repo.payments[pid].order == order
      requires c.timeouts || forall k :: !luck.cancelled(k)
      requires w in world.workers && world.workers[w] == AfterLoad(c, pid, repo.payments[pid])
      requires multiset(scan) == multiset(if order in repo.items then repo.items[order] else [])
      modifies this`notes, this`world, gw, repo`stock, repo`orders, repo`payments
      ensures Linked() && Follows(c, old(world), world)
      ensures world.workers == old(world.workers)[w := Done(order, clean)]
      ensures fault == None ==> clean
      ensures !clean ==> repo.Rows() == old(repo.Rows()) && notes == old(notes)
      ensures clean ==> pid in repo.payments && repo.payments[pid].order == order
      ensures clean ==> Ended(repo.payments[pid], ChargedFor(c, replies))
      ensures clean ==> notes == old(notes) + if recorded then [Note(order, ChargedFor(c, replies))] else []
      ensures clean ==>
                Decided(c.maxRetries, luck, old(Lookup(gw.charged, repo.payments[pid].key)), repo.payments[pid])
    {
      ghost var rows := repo.Rows();
      var r;
      r, replies := Decide(w, pid, repo.payments[pid], luck);
      ghost var charged := world;
      clean := Finish(w, pid, order, r, scan, fault, recorded);
      FollowsTransitive(c, old(world), charged, world);
      FinalisedPayment(rows, pid, r);
    }

    /** Load, charge, finalise and notify. */
    method Work(ghost supply: map<int, int>, ghost w: nat, order: nat, luck: Luck, loadFault: bool,
                scan: seq<Item>, fault: Option<nat>, recorded: bool) returns (clean: bool, replies: seq<Reply>)
      requires Linked() && Inv(c, supply, world) && FairDraw(luck)
      requires c.timeouts || forall k :: !luck.cancelled(k)
      requires w !in world.workers && (c.overlap || !Busy(world, order))
      requires multiset(scan) == multiset(if order in repo.items then repo.items[order] else [])
      modifies this`notes, this`world, gw, repo`stock, repo`orders, repo`payments
      ensures Linked() && Inv(c, supply, world) && Follows(c, old(world), world)
      ensures !loadFault && fault == None ==> clean
      ensures clean ==> NoPending(repo.Rows(), order)
      ensures loadFault || old(NoPending(repo.Rows(), order)) ==>
                repo.Rows() == old(repo.Rows()) && notes == old(notes) && gw.charged == old(gw.charged)
      ensures clean && !old(NoPending(repo.Rows(), order)) ==>
                && (exists pid :: pid in repo.payments && repo.payments[pid].order == order &&
                                  Ended(repo.payments[pid], ChargedFor(c, replies)))
                && notes == old(notes) + if recorded then [Note(order, ChargedFor(c, replies))] else []
      ensures clean ==>
                forall pid :: old(IsPending(repo.Rows(), pid)) && old(repo.payments)[pid].order == order ==>
                  && pid in repo.payments
                  && Decided(c.maxRetries, luck, Lookup(old(gw.charged), old(repo.payments)[pid].key),
                             repo.payments[pid])
    {
      ghost var before := world;
      InvOnFile(c, supply, world);
      InvOnePayment(c, supply, world, order);
      var found, err := LoadPending(w, order, loadFault);
      if found.None? {
        clean, replies := !err, [];
      } else {
        ghost var loaded := world;
        clean, replies := Settle(w, found.value, order, luck, scan, fault, recorded);
        FollowsTransitive(c, before, loaded, world);
        if clean {
          FollowsInv(c, supply, before, world);
          InvDone(c, supply, world, w, order);
        }
      }
      FollowsInv(c, supply, before, world);
    }
    /**
     A run of the protocol, by one worker. Nothing pending: nothing happens. Otherwise, without a
     store error, the payment ends paid if and only if one of the attempts gets through, with the
     id of the first that does, and failed otherwise, and one matching notification goes out. An
     attempt gets through if its deadline does not pass and the key is charged already or the
     gateway does not fail. With no attempt configured the payment ends paid without an id.
     */
    method Fulfill(ghost supply: map<int, int>, ghost w: nat, order: nat, luck: Luck, loadFault: bool,
                   scan: seq<Item>, fault: Option<nat>, recorded: bool) returns (clean: bool, replies: seq<Reply>)
      requires Linked() && Inv(c, supply, world) && FairDraw(luck)
      requires c.timeouts || forall k :: !luck.cancelled(k)
      requires w !in world.workers && (c.overlap || !Busy(world, order))
      requires multiset(scan) == multiset(if order in repo.items then repo.items[order] else [])
      modifies this`notes, this`world, gw, repo`stock, repo`orders, repo`payments
      ensures Linked() && Inv(c, supply, world) && Follows(c, old(world), world)
      ensures !loadFault && fault == None ==> clean
      ensures clean ==> NoPending(repo.Rows(), order)
      ensures loadFault || old(NoPending(repo.Rows(), order)) ==>
                repo.Rows() == old(repo.Rows()) && notes == old(notes) && gw.charged == old(gw.charged)
      ensures clean && !old(NoPending(repo.Rows(), order)) ==>
                && (exists pid :: pid in repo.payments && repo.payments[pid].order == order &&
                                  Ended(repo.payments[pid], ChargedFor(c, replies)))
                && notes == old(notes) + if recorded then [Note(order, ChargedFor(c, replies))] else []
      ensures clean && c.maxRetries <= 0 ==>
                forall pid :: old(IsPending(repo.Rows(), pid)) && old(repo.payments)[pid].order == order ==>
                  pid in repo.payments && repo.payments[pid].status == Paid && repo.payments[pid].txn == Some("")
      ensures clean && c.maxRetries >= 1 ==>
                forall pid :: old(IsPending(repo.Rows(), pid)) && old(repo.payments)[pid].order == order ==>
                  && pid in repo.payments
                  && DecidedRight(c.maxRetries, luck, old(gw.charged), old(repo.payments)[pid].key, repo.payments[pid])
    {
      ghost var rows, charged := repo.Rows(), gw.charged;
      clean, replies := Work(supply, w, order, luck, loadFault, scan, fault, recorded);
      if clean && c.maxRetries >= 1 {
        forall pid | IsPending(rows, pid) && rows.payments[pid].order == order
          ensures pid in repo.payments
                    && DecidedRight(c.maxRetries, luck, charged, rows.payments[pid].key, repo.payments[pid])
        {
          DecidedMeans(c.maxRetries, luck, charged, rows.payments[pid].key, repo.payments[pid]);
        }
      }
    }
  }
}
