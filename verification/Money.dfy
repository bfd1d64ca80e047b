/**
 When the money taken agrees with the state recorded. A paid order was charged exactly when
 at least one attempt is configured; a cancelled order was never charged exactly when workers
 do not overlap on an order and attempts outlast the gateway's latency (or nothing is ever charged).
 */
module Money {
  import opened Collections
  import opened Orders
  import opened Fulfillment

  ghost predicate PaidMeansCharged(c: Config) {
    forall supply, s :: Reaches(c, supply, s) ==> PaidOk(s)
  }

  predicate UncancelledCharges(s: World) {
    forall pid :: pid in s.db.payments && s.db.payments[pid].status == Failed ==> s.db.payments[pid].key !in s.charged
  }

  ghost predicate CancelledMeansUncharged(c: Config) {
    forall supply, s :: Reaches(c, supply, s) ==> UncancelledCharges(s)
  }

  /** With an attempt allowed, a paid payment carries the one receipt made for its key, and for its amount. */
  lemma ReceiptOnFile(c: Config, supply: map<int, int>, s: World, pid: nat) returns (i: nat)
    requires c.maxRetries >= 1 && Inv(c, supply, s)
    requires pid in s.db.payments && s.db.payments[pid].status == Paid
    ensures i < |s.receipts| && s.receipts[i].key == s.db.payments[pid].key
    ensures Some(s.receipts[i].txn) == s.db.payments[pid].txn && s.receipts[i].amount == s.db.payments[pid].amount
    ensures forall j :: 0 <= j < |s.receipts| && s.receipts[j].key == s.db.payments[pid].key ==> j == i
  {
    var k :| 0 <= k < |s.receipts| && s.receipts[k].key == s.db.payments[pid].key;
    assert Billed(s.db, s.receipts[k]);
    var q :| q in s.db.payments && s.db.payments[q].key == s.receipts[k].key &&
             s.db.payments[q].amount == s.receipts[k].amount;
    assert q == pid;
    i := k;
  }

  /**
   With an attempt allowed, exactly one charge was made for a paid order's key; its id is the one on
   the payment, and its amount the one ordered, which for intake's drafts is the order's total and
   what its stored lines cost.
   */
  lemma PaidHasReceipt(c: Config, supply: map<int, int>, s: World, pid: nat)
    requires c.maxRetries >= 1 && Reaches(c, supply, s)
    requires pid in s.db.payments && s.db.payments[pid].status == Paid
    ensures pid in s.drafts && s.db.payments[pid].order in s.db.orders && s.db.payments[pid].order in s.db.items
    ensures exists i :: 0 <= i < |s.receipts| && s.receipts[i].key == s.drafts[pid].key &&
              Some(s.receipts[i].txn) == s.db.payments[pid].txn && s.receipts[i].amount == s.drafts[pid].amount &&
              (BilledRight(s.drafts[pid]) ==>
                 && s.receipts[i].amount == s.db.orders[s.db.payments[pid].order].total
                 && s.receipts[i].amount == Bill(s.db.items[s.db.payments[pid].order])) &&
              forall j :: 0 <= j < |s.receipts| && s.receipts[j].key == s.drafts[pid].key ==> j == i
  {
    ReachesInv(c, supply, s);
    KeptAsOrdered(c, supply, s, pid);
    var i := ReceiptOnFile(c, supply, s, pid);
  }

  // ---------------------------------------------------------------- one worker per order, patient attempts

  predicate Sole(s: World) {
    forall v, w :: v in s.workers && w in s.workers && v != w && !s.workers[v].Done? && !s.workers[w].Done? ==>
      s.workers[v].order != s.workers[w].order
  }

  predicate HandlesPending(s: World) {
    forall w :: w in s.workers && (s.workers[w].Charging? || s.workers[w].Persisting?) ==>
        IsPending(s.db, s.workers[w].pid)
  }

  predicate FailedBefore(pc: Pc) {
    (pc.Charging? && pc.attempt >= 2) || (pc.Persisting? && pc.outcome.Declined?)
  }

  predicate Unbilled(s: World) {
    && UncancelledCharges(s)
    && forall w :: w in s.workers && FailedBefore(s.workers[w]) && s.workers[w].pid in s.db.payments ==>
         s.db.payments[s.workers[w].pid].key !in s.charged
  }

  predicate Quiet(c: Config, supply: map<int, int>, s: World) {
    Inv(c, supply, s) && Sole(s) && HandlesPending(s) && Unbilled(s)
  }

  lemma StepSole(c: Config, s: World, a: Action)
    requires !c.overlap && Sole(s) && PcsOk(c, s) && Enabled(c, s, a)
    ensures Sole(Apply(c, s, a))
  {
    if a.Spawn? {
      assert !Busy(s, a.order);
    }
  }

  lemma PendingStays(c: Config, s: World, a: Action, pid: nat)
    requires Enabled(c, s, a) && IsPending(s.db, pid) && pid < s.nextPayment
    requires a.Persist? ==> s.workers[a.w].pid != pid
    ensures IsPending(Apply(c, s, a).db, pid)
  {
  }

  lemma OtherWorkersPayment(c: Config, s: World, v: nat, w: nat)
    requires PcsOk(c, s) && Sole(s) && v in s.workers && w in s.workers && v != w
    requires s.workers[v].Charging? || s.workers[v].Persisting?
    requires s.workers[w].Charging? || s.workers[w].Persisting?
    ensures s.workers[v].pid != s.workers[w].pid
  {
    assert PcOk(c, s, s.workers[v]) && PcOk(c, s, s.workers[w]);
  }

  lemma HandlesAfter(c: Config, s: World, a: Action, w: nat)
    requires HandlesPending(s) && Sole(s) && PcsOk(c, s) && Enabled(c, s, a)
    requires forall pid :: pid in s.db.payments ==> pid < s.nextPayment
    requires w in Apply(c, s, a).workers
               && (Apply(c, s, a).workers[w].Charging? || Apply(c, s, a).workers[w].Persisting?)
    ensures IsPending(Apply(c, s, a).db, Apply(c, s, a).workers[w].pid)
  {
    var pid := Apply(c, s, a).workers[w].pid;
    assert IsPending(s.db, pid);
    if a.Persist? {
      OtherWorkersPayment(c, s, w, a.w);
    }
    PendingStays(c, s, a, pid);
  }

  lemma StepHandles(c: Config, s: World, a: Action)
    requires HandlesPending(s) && Sole(s) && PcsOk(c, s) && Enabled(c, s, a)
    requires forall pid :: pid in s.db.payments ==> pid < s.nextPayment
    ensures HandlesPending(Apply(c, s, a))
  {
    var s' := Apply(c, s, a);
    forall w | w in s'.workers && (s'.workers[w].Charging? || s'.workers[w].Persisting?)
      ensures IsPending(s'.db, s'.workers[w].pid)
    {
      HandlesAfter(c, s, a, w);
    }
  }

  lemma SameKeySamePayment(db: Db, p: nat, q: nat)
    requires OnePaymentEach(db) && p in db.payments && q in db.payments && db.payments[p].key == db.payments[q].key
    ensures p == q
  {
  }

  /** A fresh charge is for a payment that is pending and that no other worker is on. */
  lemma ChargeIsAlone(c: Config, s: World, w: nat, q: nat)
    requires PcsOk(c, s) && Sole(s) && HandlesPending(s) && OnePaymentEach(s.db)
    requires w in s.workers && s.workers[w].Charging?
    requires q in s.db.payments && s.db.payments[q].key == s.workers[w].key
    ensures IsPending(s.db, q)
    ensures forall v :: v in s.workers && FailedBefore(s.workers[v]) && s.workers[v].pid == q ==> v == w
  {
    assert PcOk(c, s, s.workers[w]);
    SameKeySamePayment(s.db, q, s.workers[w].pid);
    forall v | v in s.workers && FailedBefore(s.workers[v]) && s.workers[v].pid == q ensures v == w {
      assert PcOk(c, s, s.workers[v]);
    }
  }

  lemma AttemptUnbilled(c: Config, s: World, w: nat, reply: Reply)
    requires !c.timeouts && Unbilled(s) && PcsOk(c, s) && Sole(s) && HandlesPending(s) && OnePaymentEach(s.db)
    requires Enabled(c, s, Attempt(w, reply))
    ensures Unbilled(Apply(c, s, Attempt(w, reply)))
  {
    var s' := Apply(c, s, Attempt(w, reply));
    assert PcOk(c, s, s.workers[w]);
    forall pid | pid in s.db.payments && s.db.payments[pid].status == Failed
      ensures s.db.payments[pid].key !in s'.charged {
      if s.db.payments[pid].key == s.workers[w].key {
        ChargeIsAlone(c, s, w, pid);
      }
    }
    forall v | v in s'.workers && FailedBefore(s'.workers[v]) && s'.workers[v].pid in s'.db.payments
      ensures s'.db.payments[s'.workers[v].pid].key !in s'.charged
    {
      if v != w {
        assert PcOk(c, s, s.workers[v]);
        if s.db.payments[s.workers[v].pid].key == s.workers[w].key {
          ChargeIsAlone(c, s, w, s.workers[v].pid);
        }
      }
    }
  }

  lemma KeyStays(c: Config, s: World, a: Action, pid: nat)
    requires Enabled(c, s, a) && Grows(s.db, Apply(c, s, a).db) && pid in s.db.payments
    ensures pid in Apply(c, s, a).db.payments && Apply(c, s, a).db.payments[pid].key == s.db.payments[pid].key
  {
  }

  /** Only a declined worker fails a payment. */
  lemma FailedBy(c: Config, s: World, a: Action, pid: nat)
    requires Enabled(c, s, a) && pid in Apply(c, s, a).db.payments && Apply(c, s, a).db.payments[pid].status == Failed
    ensures pid in s.db.payments
    ensures s.db.payments[pid].status == Failed ||
            (a.Persist? && s.workers[a.w].pid == pid && s.workers[a.w].outcome.Declined?)
  {
  }

  /** Only a gateway attempt charges, and only it makes a worker one that has failed. */
  lemma OtherSteps(c: Config, s: World, a: Action, v: nat)
    requires Enabled(c, s, a) && !a.Attempt?
    ensures Apply(c, s, a).charged == s.charged
    ensures v in Apply(c, s, a).workers && FailedBefore(Apply(c, s, a).workers[v]) ==>
              v in s.workers && Apply(c, s, a).workers[v] == s.workers[v]
  {
  }

  lemma OtherUnbilled(c: Config, s: World, a: Action)
    requires Unbilled(s) && PcsOk(c, s) && Enabled(c, s, a) && !a.Attempt?
    requires Grows(s.db, Apply(c, s, a).db)
    ensures Unbilled(Apply(c, s, a))
  {
    var s' := Apply(c, s, a);
    OtherSteps(c, s, a, 0);
    forall pid | pid in s'.db.payments && s'.db.payments[pid].status == Failed
      ensures s'.db.payments[pid].key !in s'.charged
    {
      FailedUnbilled(c, s, a, pid);
    }
    forall v | v in s'.workers && FailedBefore(s'.workers[v]) && s'.workers[v].pid in s'.db.payments
      ensures s'.db.payments[s'.workers[v].pid].key !in s'.charged
    {
      OtherSteps(c, s, a, v);
      assert PcOk(c, s, s.workers[v]);
      KeyStays(c, s, a, s.workers[v].pid);
    }
  }

  lemma FailedUnbilled(c: Config, s: World, a: Action, pid: nat)
    requires Unbilled(s) && PcsOk(c, s) && Enabled(c, s, a) && !a.Attempt?
    requires Grows(s.db, Apply(c, s, a).db)
    requires pid in Apply(c, s, a).db.payments && Apply(c, s, a).db.payments[pid].status == Failed
    ensures Apply(c, s, a).db.payments[pid].key !in s.charged
  {
    FailedBy(c, s, a, pid);
    KeyStays(c, s, a, pid);
  }

  lemma StepQuietly(c: Config, supply: map<int, int>, s: World, a: Action)
    requires !c.overlap && !c.timeouts && Quiet(c, supply, s) && Enabled(c, s, a)
    ensures Quiet(c, supply, Apply(c, s, a))
  {
    StepInv(c, supply, s, a);
    StepSole(c, s, a);
    StepHandles(c, s, a);
    if a.Attempt? {
      AttemptUnbilled(c, s, a.w, a.reply);
    } else {
      OtherUnbilled(c, s, a);
    }
  }

  lemma {:induction false} RunQuietly(c: Config, supply: map<int, int>, s: World, acts: seq<Action>)
    requires !c.overlap && !c.timeouts && Quiet(c, supply, s) && Exec(c, s, acts).Some?
    ensures Quiet(c, supply, Exec(c, s, acts).value)
    decreases |acts|
  {
    if acts != [] {
      StepQuietly(c, supply, s, acts[0]);
      RunQuietly(c, supply, Apply(c, s, acts[0]), acts[1..]);
    }
  }

  lemma QuietNeverCancelsCharged(c: Config)
    requires !c.overlap && !c.timeouts
    ensures CancelledMeansUncharged(c)
  {
    forall supply, s | Reaches(c, supply, s) ensures UncancelledCharges(s) {
      InitInv(c, supply);
      var acts :| Exec(c, Init(supply), acts) == Some(s);
      RunQuietly(c, supply, Init(supply), acts);
    }
  }

  // ---------------------------------------------------------------- the premises are needed

  lemma ExecCons(c: Config, s: World, a: Action, rest: seq<Action>)
    requires Enabled(c, s, a)
    ensures Exec(c, s, [a] + rest) == Exec(c, Apply(c, s, a), rest)
  {
    assert ([a] + rest)[1..] == rest;
  }

  lemma SpawnAndLoad(c: Config, s: World, w: nat, pid: nat, rest: seq<Action>)
    requires w !in s.workers && IsPending(s.db, pid) && s.db.payments[pid].order in s.db.orders
    requires c.overlap || !Busy(s, s.db.payments[pid].order)
    ensures Exec(c, s, [Spawn(w, s.db.payments[pid].order)] + ([Load(w, Some(pid))] + rest)) ==
            Exec(c, Goto(s, w, AfterLoad(c, pid, s.db.payments[pid])), rest)
  {
    var o := s.db.payments[pid].order;
    ExecCons(c, s, Spawn(w, o), [Load(w, Some(pid))] + rest);
    var s' := Goto(s, w, Loading(o));
    ExecCons(c, s', Load(w, Some(pid)), rest);
    assert Goto(s', w, AfterLoad(c, pid, s.db.payments[pid])).workers ==
        Goto(s, w, AfterLoad(c, pid, s.db.payments[pid])).workers;
  }

  /** Attempts that all fail end in a declined outcome. */
  lemma {:induction false} AllFail(c: Config, s: World, w: nat, reply: Reply, n: nat, rest: seq<Action>)
    requires w in s.workers && s.workers[w].Charging? && n >= 1 && s.workers[w].attempt + n == c.maxRetries + 1
    requires reply == TimedOut || reply == Transient
    requires reply == TimedOut ==> c.timeouts
    requires reply == Transient ==> s.workers[w].key !in s.charged
    ensures Exec(c, s, Repeat(Attempt(w, reply), n) + rest) ==
            Exec(c, Goto(s, w, Persisting(s.workers[w].pid, s.workers[w].order, Declined)), rest)
    decreases n
  {
    var more := Repeat(Attempt(w, reply), n - 1) + rest;
    assert Repeat(Attempt(w, reply), n) + rest == [Attempt(w, reply)] + more;
    ExecCons(c, s, Attempt(w, reply), more);
    var s' := Apply(c, s, Attempt(w, reply));
    if n == 1 {
      assert more == rest;
    } else {
      AllFail(c, s', w, reply, n - 1, rest);
      var end := Persisting(s.workers[w].pid, s.workers[w].order, Declined);
      assert Goto(s', w, end).workers == Goto(s, w, end).workers;
    }
  }

  function Sample(u: int): Draft {
    Draft(u, [Item(1, 1, 0)], 0, "k", 0)
  }

  /** One unit on sale, ordered once. */
  function Ordered(u: int): World {
    World(Db(map[1 := 0], map[0 := Order(u, OrderPending, 0)], map[0 := [Item(1, 1, 0)]],
             map[0 := Payment(0, "k", PaymentPending, 0, None)]),
          1, 1, map[], [], map[], [], [], {}, map[0 := Sample(u)])
  }

  lemma OrderOne(c: Config, u: int, d: Draft, s: World, rest: seq<Action>)
    requires u in c.users && d == Sample(u) && s == Ordered(u)
    ensures Exec(c, Init(map[1 := 1]), [Create(d)] + rest) == Exec(c, s, rest)
  {
    var s0 := Init(map[1 := 1]);
    assert ValidLines(d.items) && Covers(s0.db.stock, d.items);
    QtyOfLine(d.items, 0);
    assert Take(s0.db.stock, d.items) == map[1 := 0];
    assert Apply(c, s0, Create(d)) == s;
    ExecCons(c, s0, Create(d), rest);
  }

  lemma Reached(c: Config, supply: map<int, int>, acts: seq<Action>, s: World)
    requires forall p :: p in supply ==> supply[p] >= 0
    requires Exec(c, Init(supply), acts) == Some(s)
    ensures Reaches(c, supply, s)
  {
  }

  /** With no attempt allowed, the charge loop returns no error and the order is confirmed unpaid. */
  lemma NoRetriesPaysUncharged(c: Config, u: int)
    requires c.maxRetries <= 0 && u in c.users
    ensures !PaidMeansCharged(c)
  {
    var s := Ordered(u);
    var tail := [Persist(0)] + [];
    var acts := [Create(Sample(u))] + ([Spawn(0, 0)] + ([Load(0, Some(0))] + tail));
    OrderOne(c, u, Sample(u), s, [Spawn(0, 0)] + ([Load(0, Some(0))] + tail));
    SpawnAndLoad(c, s, 0, 0, tail);
    var loaded := Goto(s, 0, Persisting(0, 0, Charged("")));
    ExecCons(c, loaded, Persist(0), []);
    var end := Apply(c, loaded, Persist(0));
    Reached(c, map[1 := 1], acts, end);
    assert end.db.payments[0].status == Paid && "k" !in end.charged;
    assert !PaidOk(end);
  }

  lemma CancelledAfterCharge(c: Config, s: World, w: nat, pid: nat, o: nat)
    requires w in s.workers && s.workers[w] == Persisting(pid, o, Declined)
    requires IsPending(s.db, pid) && s.db.payments[pid].key in s.charged
    ensures Exec(c, s, [Persist(w)] + []).Some? && !UncancelledCharges(Exec(c, s, [Persist(w)] + []).value)
  {
    ExecCons(c, s, Persist(w), []);
    assert Apply(c, s, Persist(w)).db.payments[pid].status == Failed;
  }

  lemma ChargeOnce(c: Config, s: World, w: nat, pid: nat, k: nat, rest: seq<Action>)
    requires w in s.workers && s.workers[w] == Charging(pid, 0, "k", 0, k) && "k" !in s.charged
    ensures Exec(c, s, [Attempt(w, Accepted("t"))] + rest) ==
            Exec(c, Goto(s, w, Persisting(pid, 0, Charged("t")))
                    .(charged := s.charged["k" := "t"], receipts := s.receipts + [Receipt("k", 0, "t")]), rest)
  {
    ExecCons(c, s, Attempt(w, Accepted("t")), rest);
  }

  /** Two workers on one order: one gives up, the other charges, the first cancels. */
  lemma OverlapCancelsCharged(c: Config, u: int)
    requires c.maxRetries >= 1 && c.overlap && u in c.users
    ensures !CancelledMeansUncharged(c)
  {
    var s := Ordered(u);
    var a3 := [Persist(0)] + [];
    var a2 := [Attempt(1, Accepted("t"))] + a3;
    var a1 := Repeat(Attempt(0, Transient), c.maxRetries) + a2;
    var a0 := [Spawn(1, 0)] + ([Load(1, Some(0))] + a1);
    OrderOne(c, u, Sample(u), s, [Spawn(0, 0)] + ([Load(0, Some(0))] + a0));
    SpawnAndLoad(c, s, 0, 0, a0);
    var s1 := Goto(s, 0, Charging(0, 0, "k", 0, 1));
    SpawnAndLoad(c, s1, 1, 0, a1);
    var s2 := Goto(s1, 1, Charging(0, 0, "k", 0, 1));
    AllFail(c, s2, 0, Transient, c.maxRetries, a2);
    var s3 := Goto(s2, 0, Persisting(0, 0, Declined));
    ChargeOnce(c, s3, 1, 0, 1, a3);
    var s4 := Goto(s3, 1, Persisting(0, 0, Charged("t")))
              .(charged := s3.charged["k" := "t"], receipts := s3.receipts + [Receipt("k", 0, "t")]);
    CancelledAfterCharge(c, s4, 0, 0, 0);
    Reached(c, map[1 := 1], [Create(Sample(u))] + ([Spawn(0, 0)] + ([Load(0, Some(0))] + a0)), Exec(c, s4, a3).value);
  }

  /** An order charged by a worker that then could not record it. */
  function Stranded(u: int): World {
    Ordered(u).(charged := map["k" := "t"], receipts := [Receipt("k", 0, "t")], workers := map[0 := Done(0, false)])
  }

  lemma ChargeThenStoreError(c: Config, u: int, s: World, stranded: World, rest: seq<Action>)
    requires c.maxRetries >= 1 && u in c.users && s == Ordered(u) && stranded == Stranded(u)
    ensures Exec(c, s, [Spawn(0, 0)] +
                         ([Load(0, Some(0))] + ([Attempt(0, Accepted("t"))] + ([PersistError(0)] + rest)))) ==
            Exec(c, stranded, rest)
  {
    var error := [PersistError(0)] + rest;
    SpawnAndLoad(c, s, 0, 0, [Attempt(0, Accepted("t"))] + error);
    var s1 := Goto(s, 0, Charging(0, 0, "k", 0, 1));
    ChargeOnce(c, s1, 0, 0, 1, error);
    var s2 := Goto(s1, 0, Persisting(0, 0, Charged("t")))
              .(charged := s1.charged["k" := "t"], receipts := s1.receipts + [Receipt("k", 0, "t")]);
    ExecCons(c, s2, PersistError(0), rest);
    var r := Receipt("k", 0, "t");
    assert [] + [r] == [r];
    assert Apply(c, s2, PersistError(0)) == stranded;
  }

  /** A second worker on the stranded order times out on every attempt and cancels. */
  lemma StrandedIsCancelled(c: Config, u: int, s: World) returns (acts: seq<Action>)
    requires c.maxRetries >= 1 && c.timeouts && s == Stranded(u)
    ensures Exec(c, s, acts).Some? && !UncancelledCharges(Exec(c, s, acts).value)
  {
    var a2 := [Persist(1)] + [];
    var a1 := Repeat(Attempt(1, TimedOut), c.maxRetries) + a2;
    acts := [Spawn(1, 0)] + ([Load(1, Some(0))] + a1);
    SpawnAndLoad(c, s, 1, 0, a1);
    var s1 := Goto(s, 1, Charging(0, 0, "k", 0, 1));
    AllFail(c, s1, 1, TimedOut, c.maxRetries, a2);
    CancelledAfterCharge(c, Goto(s1, 1, Persisting(0, 0, Declined)), 1, 0, 0);
  }

  /** A worker charges and then hits a store error; the next one times out on every attempt and cancels. */
  lemma TimeoutCancelsCharged(c: Config, u: int)
    requires c.maxRetries >= 1 && c.timeouts && u in c.users
    ensures !CancelledMeansUncharged(c)
  {
    var stranded := Stranded(u);
    var later := StrandedIsCancelled(c, u, stranded);
    var first := [Spawn(0, 0)] + ([Load(0, Some(0))] + ([Attempt(0, Accepted("t"))] + ([PersistError(0)] + later)));
    OrderOne(c, u, Sample(u), Ordered(u), first);
    ChargeThenStoreError(c, u, Ordered(u), stranded, later);
    Reached(c, map[1 := 1], [Create(Sample(u))] + first, Exec(c, stranded, later).value);
  }

  // ---------------------------------------------------------------- with no attempt allowed nothing is cancelled

  predicate NeverDeclines(s: World) {
    && (forall w :: w in s.workers ==> !s.workers[w].Charging? && !FailedBefore(s.workers[w]))
    && (forall pid :: pid in s.db.payments ==> s.db.payments[pid].status != Failed)
  }

  lemma {:induction false} NoRetriesNeverDeclines(c: Config, s: World, acts: seq<Action>)
    requires c.maxRetries <= 0 && NeverDeclines(s) && Exec(c, s, acts).Some?
    ensures NeverDeclines(Exec(c, s, acts).value)
    decreases |acts|
  {
    if acts != [] {
      var s' := Apply(c, s, acts[0]);
      forall pid | pid in s'.db.payments ensures s'.db.payments[pid].status != Failed {
        if s'.db.payments[pid].status == Failed {
          FailedBy(c, s, acts[0], pid);
        }
      }
      NoRetriesNeverDeclines(c, s', acts[1..]);
    }
  }

  lemma NoRetriesNeverCancels(c: Config)
    requires c.maxRetries <= 0
    ensures CancelledMeansUncharged(c)
  {
    forall supply, s | Reaches(c, supply, s) ensures UncancelledCharges(s) {
      var acts :| Exec(c, Init(supply), acts) == Some(s);
      NoRetriesNeverDeclines(c, Init(supply), acts);
    }
  }

  // ---------------------------------------------------------------- the exact conditions

  /** In every run paid orders were charged, exactly when at least one attempt is configured. */
  lemma PaidMeansChargedIff(c: Config, u: int)
    requires u in c.users
    ensures PaidMeansCharged(c) <==> c.maxRetries >= 1
  {
    if c.maxRetries >= 1 {
      forall supply, s | Reaches(c, supply, s) ensures PaidOk(s) {
        ReachesInv(c, supply, s);
      }
    } else {
      NoRetriesPaysUncharged(c, u);
    }
  }

  /**
   In every run cancelled orders were not charged, exactly when no attempt is ever made or
   workers never overlap on an order and attempts never time out.
   */
  lemma CancelledMeansUnchargedIff(c: Config, u: int)
    requires u in c.users
    ensures CancelledMeansUncharged(c) <==> c.maxRetries <= 0 || (!c.overlap && !c.timeouts)
  {
    if c.maxRetries <= 0 {
      NoRetriesNeverCancels(c);
    } else if !c.overlap && !c.timeouts {
      QuietNeverCancelsCharged(c);
    } else if c.overlap {
      OverlapCancelsCharged(c, u);
    } else {
      TimeoutCancelsCharged(c, u);
    }
  }
}
