/**
 Row locks are taken in one global order: payment, then order, then stock rows by ascending
 product id. Intake's sort supplies the order for creates; the restock loop follows whatever
 order the item query returns. No wait-for cycle is reachable exactly when both are sorted.
 */
module Deadlock {
  import opened Collections
  import opened Orders
  import Sorting
  import opened Transactions

  function Kind(r: Row): int {
    match r
    case PaymentRow(_) => 0
    case OrderRow(_) => 1
    case StockRow(_) => 2
  }

  function Place(r: Row): int {
    match r
    case PaymentRow(id) => id
    case OrderRow(id) => id
    case StockRow(p) => p
  }

  predicate Before(a: Row, b: Row) {
    Kind(a) < Kind(b) || (Kind(a) == Kind(b) && Place(a) < Place(b))
  }

  /** A round of transactions, each waiting for a row held by the next and the last for the first. */
  predicate Cycle(s: System, ts: seq<nat>) {
    && ts != []
    && (forall i :: 0 < i < |ts| ==> WaitsFor(s, ts[i - 1], ts[i]))
    && WaitsFor(s, ts[|ts| - 1], ts[0])
  }

  ghost predicate Deadlocked(s: System) {
    exists ts :: Cycle(s, ts)
  }

  ghost predicate DeadlockFree(env: Env) {
    forall supply, db, nextOrder, nextPayment, acts ::
      DbInv(supply, db, nextOrder, nextPayment) && Exec(env, Start(db, nextOrder, nextPayment), acts).Some? ==>
        !Deadlocked(Exec(env, Start(db, nextOrder, nextPayment), acts).value)
  }

  // ---------------------------------------------------------------- sorted access has no cycle

  predicate SortedAccess(s: System) {
    forall t :: t in s.txns ==>
      && (s.txns[t].Creating? ==> Ascending(s.txns[t].draft.items))
      && (s.txns[t].Finalising? && s.txns[t].fphase.Restocking? ==> Ascending(s.txns[t].fphase.rows))
  }

  lemma SortedAccessStep(env: Env, s: System, a: Action)
    requires env.sortedCarts && env.sortedScans
    requires SortedAccess(s) && Enabled(env, s, a)
    ensures SortedAccess(Apply(env, s, a))
  {
  }

  lemma {:induction false} SortedAccessRun(env: Env, supply: map<int, int>, db0: Db, s: System, acts: seq<Action>)
    requires env.sortedCarts && env.sortedScans
    requires SortedAccess(s) && SysInv(env, supply, db0, s) && Exec(env, s, acts).Some?
    ensures SortedAccess(Exec(env, s, acts).value) && SysInv(env, supply, db0, Exec(env, s, acts).value)
    decreases |acts|
  {
    if acts != [] {
      SortedAccessStep(env, s, acts[0]);
      StepKeeps(env, supply, db0, s, acts[0]);
      SortedAccessRun(env, supply, db0, Apply(env, s, acts[0]), acts[1..]);
    }
  }

  function Wanted(s: System, t: nat): Row
    requires t in s.txns && Wants(s.committed, s.txns[t]).Some?
  {
    Wants(s.committed, s.txns[t]).value
  }

  /** Whatever a waiting transaction holds comes before what it waits for. */
  lemma HeldBeforeWanted(env: Env, db: Db, x: Txn, r: Row)
    requires TxnOk(env, db, x) && Holds(x, r) && Wants(db, x).Some?
    requires x.Creating? ==> Ascending(x.draft.items)
    requires x.Finalising? && x.fphase.Restocking? ==> Ascending(x.fphase.rows)
    ensures Before(r, Wants(db, x).value)
  {
  }

  /** Along a wait-for edge the row waited for comes later in the global order. */
  ghost predicate Climbs(s: System) {
    forall t, u :: WaitsFor(s, t, u) && Wants(s.committed, s.txns[u]).Some? ==> Before(Wanted(s, t), Wanted(s, u))
  }

  lemma WaitsClimb(env: Env, s: System)
    requires TxnsOk(env, s) && SortedAccess(s)
    ensures Climbs(s)
  {
    forall t, u | WaitsFor(s, t, u) && Wants(s.committed, s.txns[u]).Some?
      ensures Before(Wanted(s, t), Wanted(s, u))
    {
      assert TxnOk(env, s.committed, s.txns[u]);
      HeldBeforeWanted(env, s.committed, s.txns[u], Wanted(s, t));
    }
  }

  lemma {:induction false} ChainClimbs(s: System, ts: seq<nat>, i: nat)
    requires Climbs(s) && Cycle(s, ts) && 0 < i < |ts|
    ensures WaitsFor(s, ts[i - 1], ts[i]) && WaitsFor(s, ts[0], ts[1]) && Wants(s.committed, s.txns[ts[i]]).Some?
    ensures Before(Wanted(s, ts[0]), Wanted(s, ts[i]))
  {
    assert WaitsFor(s, ts[1 - 1], ts[1]);
    assert WaitsFor(s, ts[|ts| - 1], ts[0]);
    if i + 1 < |ts| {
      assert WaitsFor(s, ts[i + 1 - 1], ts[i + 1]);
    }
    if i > 1 {
      ChainClimbs(s, ts, i - 1);
    }
  }

  lemma NoCycle(s: System, ts: seq<nat>)
    requires Climbs(s)
    ensures !Cycle(s, ts)
  {
    if Cycle(s, ts) {
      assert WaitsFor(s, ts[|ts| - 1], ts[0]);
      if |ts| > 1 {
        ChainClimbs(s, ts, |ts| - 1);
      }
    }
  }

  /** The rows waited for keep climbing, so following the waits from t ends at a transaction that can run. */
  lemma {:induction false} SomeoneRuns(s: System, t: nat, passed: set<nat>) returns (u: nat)
    requires Climbs(s) && t in s.txns && passed <= s.txns.Keys
    requires forall v :: v in passed ==>
               Wants(s.committed, s.txns[v]).Some? &&
               (Wants(s.committed, s.txns[t]).Some? ==> Before(Wanted(s, v), Wanted(s, t)))
    ensures u in s.txns && !Blocked(s, u)
    decreases |s.txns.Keys - passed|
  {
    if !Blocked(s, t) {
      return t;
    }
    var v :| v in s.txns && WaitsFor(s, t, v);
    if Wants(s.committed, s.txns[v]).None? {
      return v;
    }
    assert t in s.txns.Keys - passed;
    SmallerSet(s.txns.Keys - (passed + {t}), s.txns.Keys - passed);
    u := SomeoneRuns(s, v, passed + {t});
  }

  /** The next step of transaction t: its statement, its commit, or its rollback if a statement has failed. */
  predicate NextStepOf(x: Txn, t: nat, a: Action) {
    match a
    case Statement(u, _) => u == t && HasStatement(x)
    case Commit(u) => u == t && MayCommit(x)
    case Abort(u) => u == t && x.Creating? && x.cphase.Doomed?
    case _ => false
  }

  /** The item query's rows, in product order. */
  lemma SortedScan(items: seq<Item>) returns (scan: seq<Item>)
    requires Distinct(items)
    ensures multiset(scan) == multiset(items) && Ascending(scan)
  {
    var key := (i: Item) => i.product;
    scan := Sorting.SortBy(items, key);
    assert Sorting.DistinctKeys(items, key);
    Sorting.DistinctPermuted(items, scan, key);
    forall i, j | 0 <= i < j < |scan| ensures scan[i].product < scan[j].product {
      assert key(scan[i]) <= key(scan[j]) && key(scan[i]) != key(scan[j]);
    }
  }

  /** A transaction that is not waiting can take its next step. */
  lemma Unwaiting(env: Env, s: System, t: nat) returns (a: Action)
    requires TxnsOk(env, s) && t in s.txns && !Blocked(s, t)
    requires s.txns[t].Finalising? ==>
               s.txns[t].payment in s.committed.payments
                   && OrderIntact(s.committed.stock, s.committed, s.txns[t].payment)
    ensures Enabled(env, s, a) && NextStepOf(s.txns[t], t, a)
  {
    var x := s.txns[t];
    assert TxnOk(env, s.committed, x);
    if MayCommit(x) {
      a := Commit(t);
    } else if x.Creating? && x.cphase.Doomed? {
      a := Abort(t);
    } else if x.Finalising? && x.fphase.SelectItems? {
      var scan := SortedScan(s.committed.items[x.order]);
      a := Statement(t, scan);
    } else {
      a := Statement(t, []);
    }
  }

  /** In every reachable state with open transactions, one of them is not waiting and can take its next step. */
  lemma AlwaysSomeoneRuns(env: Env, supply: map<int, int>, db: Db, nextOrder: nat, nextPayment: nat, acts: seq<Action>)
    requires env.sortedCarts && env.sortedScans
    requires DbInv(supply, db, nextOrder, nextPayment) && Exec(env, Start(db, nextOrder, nextPayment), acts).Some?
    ensures var s := Exec(env, Start(db, nextOrder, nextPayment), acts).value;
            s.txns != map[] ==>
              exists t, a :: t in s.txns && !Blocked(s, t) && Enabled(env, s, a) && NextStepOf(s.txns[t], t, a)
  {
    SortedAccessRun(env, supply, db, Start(db, nextOrder, nextPayment), acts);
    var s := Exec(env, Start(db, nextOrder, nextPayment), acts).value;
    if s.txns != map[] {
      WaitsClimb(env, s);
      var t :| t in s.txns;
      var u := SomeoneRuns(s, t, {});
      if s.txns[u].Finalising? {
        FinalisingOnFile(env, supply, db, s, u);
      }
      var a := Unwaiting(env, s, u);
    }
  }

  lemma FinalisingOnFile(env: Env, supply: map<int, int>, db0: Db, s: System, t: nat)
    requires SysInv(env, supply, db0, s) && t in s.txns && s.txns[t].Finalising?
    ensures s.txns[t].payment in s.committed.payments && OrderIntact(s.committed.stock, s.committed, s.txns[t].payment)
  {
    assert TxnOk(env, s.committed, s.txns[t]);
  }

  lemma SortedIsDeadlockFree(env: Env)
    requires env.sortedCarts && env.sortedScans
    ensures DeadlockFree(env)
  {
    forall supply, db, nextOrder, nextPayment, acts, ts |
      DbInv(supply, db, nextOrder, nextPayment) && Exec(env, Start(db, nextOrder, nextPayment), acts).Some?
      ensures !Cycle(Exec(env, Start(db, nextOrder, nextPayment), acts).value, ts)
    {
      SortedAccessRun(env, supply, db, Start(db, nextOrder, nextPayment), acts);
      var s := Exec(env, Start(db, nextOrder, nextPayment), acts).value;
      WaitsClimb(env, s);
      NoCycle(s, ts);
    }
  }

  // ---------------------------------------------------------------- unsorted access does deadlock

  lemma ExecCons(env: Env, s: System, a: Action, rest: seq<Action>)
    requires Enabled(env, s, a)
    ensures Exec(env, s, [a] + rest) == Exec(env, Apply(env, s, a), rest)
  {
    assert ([a] + rest)[1..] == rest;
  }

  /** Two open transactions and nothing committed yet. */
  function Two(db: Db, x: Txn, y: Txn, nextOrder: nat, nextPayment: nat): System {
    System(db, map[0 := x, 1 := y], nextOrder, nextPayment, [])
  }

  predicate Free(db: Db, x: Txn, y: Txn) {
    Wants(db, x).None? || !Holds(y, Wants(db, x).value)
  }

  predicate Inserts(x: Txn) {
    x.Creating? && (x.cphase.InsertOrder? || x.cphase.InsertPayment?)
  }

  predicate ScanFits(env: Env, db: Db, x: Txn, scan: seq<Item>) {
    x.Finalising? && x.fphase.SelectItems? ==>
      x.order in db.items && multiset(scan) == multiset(db.items[x.order]) && (env.sortedScans ==> Ascending(scan))
  }

  lemma FirstSteps(env: Env, db: Db, x: Txn, y: Txn, m: nat, n: nat, scan: seq<Item>, x': Txn, rest: seq<Action>)
    requires HasStatement(x) && !Inserts(x) && Free(db, x, y) && ScanFits(env, db, x, scan)
    requires x' == Next(env, Two(db, x, y, m, n), x, scan)
    ensures Exec(env, Two(db, x, y, m, n), [Statement(0, scan)] + rest) == Exec(env, Two(db, x', y, m, n), rest)
  {
    var s := Two(db, x, y, m, n);
    assert !Blocked(s, 0);
    ExecCons(env, s, Statement(0, scan), rest);
    assert Apply(env, s, Statement(0, scan)).txns == map[0 := x', 1 := y];
  }

  lemma SecondSteps(env: Env, db: Db, x: Txn, y: Txn, m: nat, n: nat, scan: seq<Item>, y': Txn, rest: seq<Action>)
    requires HasStatement(y) && !Inserts(y) && Free(db, y, x) && ScanFits(env, db, y, scan)
    requires y' == Next(env, Two(db, x, y, m, n), y, scan)
    ensures Exec(env, Two(db, x, y, m, n), [Statement(1, scan)] + rest) == Exec(env, Two(db, x, y', m, n), rest)
  {
    var s := Two(db, x, y, m, n);
    assert !Blocked(s, 1);
    ExecCons(env, s, Statement(1, scan), rest);
    assert Apply(env, s, Statement(1, scan)).txns == map[0 := x, 1 := y'];
  }

  lemma BothWait(db: Db, x: Txn, y: Txn, m: nat, n: nat)
    requires Wants(db, x).Some? && Holds(y, Wants(db, x).value)
    requires Wants(db, y).Some? && Holds(x, Wants(db, y).value)
    ensures Cycle(Two(db, x, y, m, n), [0, 1])
  {
    var s := Two(db, x, y, m, n);
    assert WaitsFor(s, 0, 1) && WaitsFor(s, 1, 0);
  }

  function Line(p: int): Item { Item(p, 1, 0) }

  function Cart(key: string, first: int, second: int): Draft {
    Draft(0, [Line(first), Line(second)], 0, key, 0)
  }

  function CartDb(): Db {
    Db(map[1 := 2, 2 := 2], map[], map[], map[])
  }

  lemma CartsBegin(env: Env, rest: seq<Action>)
    requires !env.sortedCarts
    ensures DbInv(CartDb().stock, CartDb(), 0, 0)
    ensures var a, b := Cart("a", 1, 2), Cart("b", 2, 1);
            Exec(env, Start(CartDb(), 0, 0), [BeginCreate(0, a)] + ([BeginCreate(1, b)] + rest)) ==
            Exec(env, Two(CartDb(), Creating(a, Reserving(0), NoWrites), Creating(b, Reserving(0), NoWrites), 0, 0),
                 rest)
  {
    var a, b := Cart("a", 1, 2), Cart("b", 2, 1);
    var s0 := Start(CartDb(), 0, 0);
    ExecCons(env, s0, BeginCreate(0, a), [BeginCreate(1, b)] + rest);
    var s1 := Apply(env, s0, BeginCreate(0, a));
    ExecCons(env, s1, BeginCreate(1, b), rest);
    assert Apply(env, s1, BeginCreate(1, b)).txns ==
           map[0 := Creating(a, Reserving(0), NoWrites), 1 := Creating(b, Reserving(0), NoWrites)];
  }

  function StockOnly(p: int, q: int): Db {
    Db(map[p := q], map[], map[], map[])
  }

  lemma CartTakesFirst(env: Env, s: System, key: string, p: int, q: int)
    requires s.committed == CartDb() && (p == 1 || p == 2)
    ensures Next(env, s, Creating(Cart(key, p, q), Reserving(0), NoWrites), []) ==
            Creating(Cart(key, p, q), Reserving(1), StockOnly(p, 1))
  {
  }

  lemma CartsCross(env: Env, db: Db, a: Draft, b: Draft, first: seq<Action>, tail: seq<Action>)
    requires db == CartDb() && a == Cart("a", 1, 2) && b == Cart("b", 2, 1)
    requires tail == [Statement(1, [])] + [] && first == [Statement(0, [])] + tail
    ensures Exec(env, Two(db, Creating(a, Reserving(0), NoWrites), Creating(b, Reserving(0), NoWrites), 0, 0), first) ==
            Some(Two(db, Creating(a, Reserving(1), StockOnly(1, 1)), Creating(b, Reserving(1), StockOnly(2, 1)), 0, 0))
  {
    var x0, y0 := Creating(a, Reserving(0), NoWrites), Creating(b, Reserving(0), NoWrites);
    var x1, y1 := Creating(a, Reserving(1), StockOnly(1, 1)), Creating(b, Reserving(1), StockOnly(2, 1));
    CartTakesFirst(env, Two(db, x0, y0, 0, 0), "a", 1, 2);
    FirstSteps(env, db, x0, y0, 0, 0, [], x1, tail);
    CartTakesFirst(env, Two(db, x1, y0, 0, 0), "b", 2, 1);
    SecondSteps(env, db, x1, y0, 0, 0, [], y1, []);
  }

  lemma Refutes(env: Env, supply: map<int, int>, db: Db, m: nat, n: nat, acts: seq<Action>, s: System, ts: seq<nat>)
    requires DbInv(supply, db, m, n) && Exec(env, Start(db, m, n), acts) == Some(s) && Cycle(s, ts)
    ensures !DeadlockFree(env)
  {
    assert Deadlocked(Exec(env, Start(db, m, n), acts).value);
  }

  lemma CartsWait(db: Db, x: Txn, y: Txn)
    requires db == CartDb()
    requires x == Creating(Cart("a", 1, 2), Reserving(1), StockOnly(1, 1))
    requires y == Creating(Cart("b", 2, 1), Reserving(1), StockOnly(2, 1))
    ensures Cycle(Two(db, x, y, 0, 0), [0, 1])
  {
    BothWait(db, x, y, 0, 0);
  }

  lemma CartsRun(env: Env, db: Db, a: Draft, b: Draft, x: Txn, y: Txn) returns (acts: seq<Action>)
    requires !env.sortedCarts
    requires db == CartDb() && a == Cart("a", 1, 2) && b == Cart("b", 2, 1)
    requires x == Creating(a, Reserving(1), StockOnly(1, 1)) && y == Creating(b, Reserving(1), StockOnly(2, 1))
    ensures DbInv(db.stock, db, 0, 0) && Exec(env, Start(db, 0, 0), acts) == Some(Two(db, x, y, 0, 0))
  {
    var tail := [Statement(1, [])] + [];
    var first := [Statement(0, [])] + tail;
    acts := [BeginCreate(0, a)] + ([BeginCreate(1, b)] + first);
    CartsBegin(env, first);
    CartsCross(env, db, a, b, first, tail);
  }

  /** Two carts with the same two products in opposite orders. */
  lemma UnsortedCartsDeadlock(env: Env)
    requires !env.sortedCarts
    ensures !DeadlockFree(env)
  {
    var db, a, b := CartDb(), Cart("a", 1, 2), Cart("b", 2, 1);
    var x, y := Creating(a, Reserving(1), StockOnly(1, 1)), Creating(b, Reserving(1), StockOnly(2, 1));
    var acts := CartsRun(env, db, a, b, x, y);
    CartsWait(db, x, y);
    Refutes(env, db.stock, db, 0, 0, acts, Two(db, x, y, 0, 0), [0, 1]);
  }

  // Two pending orders for the same two products; all of the stock is on them.

  function TwoOrders(): Db {
    Db(map[1 := 0, 2 := 0],
       map[0 := Order(0, OrderPending, 0), 1 := Order(0, OrderPending, 0)],
       map[0 := [Line(1), Line(2)], 1 := [Line(1), Line(2)]],
       map[0 := Payment(0, "a", PaymentPending, 0, None), 1 := Payment(1, "b", PaymentPending, 0, None)])
  }

  lemma TwoOrdersHeld(db: Db, p: int)
    requires db == TwoOrders() && (p == 1 || p == 2)
    ensures Held(db, p, 2) == 2
  {
    var lines := [Line(1), Line(2)];
    QtyOfLine(lines, p - 1);
    assert HeldBy(db, p, 0) == Qty(lines, p) && HeldBy(db, p, 1) == Qty(lines, p);
    assert Held(db, p, 1) == Held(db, p, 0) + HeldBy(db, p, 0);
  }

  lemma TwoOrdersPaid(db: Db)
    requires db == TwoOrders()
    ensures IdsBelow(db, 2, 2) && OnePaymentEach(db)
  {
    assert db.payments[0].order == 0 && db.payments[1].order == 1;
    assert db.orders.Keys == {0, 1};
  }

  lemma TwoOrdersIntact(db: Db, pid: nat)
    requires db == TwoOrders() && pid in db.payments
    ensures OrderIntact(db.stock, db, pid)
  {
  }

  lemma TwoOrdersValid(db: Db)
    requires db == TwoOrders()
    ensures DbInv(map[1 := 2, 2 := 2], db, 2, 2)
  {
    TwoOrdersPaid(db);
    TwoOrdersIntact(db, 0);
    TwoOrdersIntact(db, 1);
    TwoOrdersHeld(db, 1);
    TwoOrdersHeld(db, 2);
    assert Conserved(map[1 := 2, 2 := 2], db, 2);
  }

  /** The declining transaction of order k after n of its first four statements. */
  function Declining(k: nat, rows: seq<Item>, n: nat): Txn
    requires k in TwoOrders().payments && |rows| == 2
  {
    var pay, order := TwoOrders().payments[k], TwoOrders().orders[k];
    var w1 := Db(map[], map[], map[], map[k := pay.(status := Failed)]);
    var w2 := w1.(orders := map[k := order.(status := Cancelled)]);
    var w4 := w2.(stock := map[rows[0].product := rows[0].quantity]);
    if n == 0 then Finalising(k, k, Declined, Guard, NoWrites)
    else if n == 1 then Finalising(k, k, Declined, UpdateOrder, w1)
    else if n == 2 then Finalising(k, k, Declined, SelectItems, w2)
    else if n == 3 then Finalising(k, k, Declined, Restocking(rows, 0), w2)
    else Finalising(k, k, Declined, Restocking(rows, 1), w4)
  }

  lemma DecliningNext(env: Env, s: System, k: nat, rows: seq<Item>, n: nat)
    requires s.committed == TwoOrders() && k in TwoOrders().payments && n < 4
    requires rows == [Line(1), Line(2)] || rows == [Line(2), Line(1)]
    ensures Next(env, s, Declining(k, rows, n), rows) == Declining(k, rows, n + 1)
  {
    if n == 3 {
      var p := rows[0].product;
      assert map[][p := 0 + 1] == map[p := 1];
    }
  }

  lemma {:induction false} FirstDeclines(env: Env, db: Db, rows: seq<Item>, y: Txn, n: nat, rest: seq<Action>)
    requires db == TwoOrders() && rows == [Line(1), Line(2)] && n <= 4
    requires y == Finalising(1, 1, Declined, Guard, NoWrites)
    ensures Exec(env, Two(db, Declining(0, rows, 4 - n), y, 2, 2), Repeat(Statement(0, rows), n) + rest) ==
            Exec(env, Two(db, Declining(0, rows, 4), y, 2, 2), rest)
  {
    if n == 0 {
      assert Repeat(Statement(0, rows), 0) + rest == rest;
    } else {
      var more := Repeat(Statement(0, rows), n - 1) + rest;
      assert Repeat(Statement(0, rows), n) + rest == [Statement(0, rows)] + more;
      DecliningNext(env, Two(db, Declining(0, rows, 4 - n), y, 2, 2), 0, rows, 4 - n);
      FirstSteps(env, db, Declining(0, rows, 4 - n), y, 2, 2, rows, Declining(0, rows, 5 - n), more);
      FirstDeclines(env, db, rows, y, n - 1, rest);
    }
  }

  /** The second cancellation is free to move until it wants the row the first one holds. */
  lemma SecondIsFree(env: Env, db: Db, rows: seq<Item>, x: Txn, n: nat)
    requires !env.sortedScans && db == TwoOrders() && rows == [Line(2), Line(1)] && n < 4
    requires x == Declining(0, [Line(1), Line(2)], 4)
    ensures var y := Declining(1, rows, n);
            HasStatement(y) && !Inserts(y) && Free(db, y, x) && ScanFits(env, db, y, rows)
  {
    assert multiset(rows) == multiset([Line(1), Line(2)]);
  }

  lemma {:induction false} SecondDeclines(env: Env, db: Db, rows: seq<Item>, x: Txn, n: nat, rest: seq<Action>)
    requires !env.sortedScans
    requires db == TwoOrders() && rows == [Line(2), Line(1)] && n <= 4
    requires x == Declining(0, [Line(1), Line(2)], 4)
    ensures Exec(env, Two(db, x, Declining(1, rows, 4 - n), 2, 2), Repeat(Statement(1, rows), n) + rest) ==
            Exec(env, Two(db, x, Declining(1, rows, 4), 2, 2), rest)
  {
    if n == 0 {
      assert Repeat(Statement(1, rows), 0) + rest == rest;
    } else {
      var more := Repeat(Statement(1, rows), n - 1) + rest;
      assert Repeat(Statement(1, rows), n) + rest == [Statement(1, rows)] + more;
      SecondIsFree(env, db, rows, x, 4 - n);
      DecliningNext(env, Two(db, x, Declining(1, rows, 4 - n), 2, 2), 1, rows, 4 - n);
      SecondSteps(env, db, x, Declining(1, rows, 4 - n), 2, 2, rows, Declining(1, rows, 5 - n), more);
      SecondDeclines(env, db, rows, x, n - 1, rest);
    }
  }

  lemma DeclinesBegin(env: Env, db: Db, rest: seq<Action>)
    requires db == TwoOrders()
    ensures Exec(env, Start(db, 2, 2), [BeginFinalise(0, 0, Declined)] + ([BeginFinalise(1, 1, Declined)] + rest)) ==
            Exec(env, Two(db, Finalising(0, 0, Declined, Guard, NoWrites), Finalising(1, 1, Declined, Guard, NoWrites),
                          2, 2), rest)
  {
    var s0 := Start(db, 2, 2);
    ExecCons(env, s0, BeginFinalise(0, 0, Declined), [BeginFinalise(1, 1, Declined)] + rest);
    var s1 := Apply(env, s0, BeginFinalise(0, 0, Declined));
    ExecCons(env, s1, BeginFinalise(1, 1, Declined), rest);
    assert Apply(env, s1, BeginFinalise(1, 1, Declined)).txns ==
           map[0 := Finalising(0, 0, Declined, Guard, NoWrites), 1 := Finalising(1, 1, Declined, Guard, NoWrites)];
  }

  lemma DeclinesWait(db: Db, up: seq<Item>, down: seq<Item>)
    requires db == TwoOrders() && up == [Line(1), Line(2)] && down == [Line(2), Line(1)]
    ensures Cycle(Two(db, Declining(0, up, 4), Declining(1, down, 4), 2, 2), [0, 1])
  {
    BothWait(db, Declining(0, up, 4), Declining(1, down, 4), 2, 2);
  }

  lemma DeclinesRun(env: Env, db: Db, up: seq<Item>, down: seq<Item>) returns (acts: seq<Action>)
    requires !env.sortedScans
    requires db == TwoOrders() && up == [Line(1), Line(2)] && down == [Line(2), Line(1)]
    ensures Exec(env, Start(db, 2, 2), acts) == Some(Two(db, Declining(0, up, 4), Declining(1, down, 4), 2, 2))
  {
    var second := Repeat(Statement(1, down), 4) + [];
    var both := Repeat(Statement(0, up), 4) + second;
    acts := [BeginFinalise(0, 0, Declined)] + ([BeginFinalise(1, 1, Declined)] + both);
    DeclinesBegin(env, db, both);
    FirstDeclines(env, db, up, Finalising(1, 1, Declined, Guard, NoWrites), 4, second);
    SecondDeclines(env, db, down, Declining(0, up, 4), 4, []);
  }

  /** Two cancellations whose item queries return the same two products in opposite orders. */
  lemma UnsortedScansDeadlock(env: Env)
    requires !env.sortedScans
    ensures !DeadlockFree(env)
  {
    var db, up, down := TwoOrders(), [Line(1), Line(2)], [Line(2), Line(1)];
    TwoOrdersValid(db);
    var acts := DeclinesRun(env, db, up, down);
    DeclinesWait(db, up, down);
    Refutes(env, map[1 := 2, 2 := 2], db, 2, 2, acts, Two(db, Declining(0, up, 4), Declining(1, down, 4), 2, 2),
            [0, 1]);
  }

  /** No reachable state has a wait-for cycle exactly when carts and item scans both come sorted by product. */
  lemma DeadlockFreeIffSorted(env: Env)
    ensures DeadlockFree(env) <==> env.sortedCarts && env.sortedScans
  {
    if env.sortedCarts && env.sortedScans {
      SortedIsDeadlockFree(env);
    } else if !env.sortedCarts {
      UnsortedCartsDeadlock(env);
    } else {
      UnsortedScansDeadlock(env);
    }
  }
}
