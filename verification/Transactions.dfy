/**
 The repository's transactions one SQL statement at a time. Any number of transactions
 interleave. An UPDATE takes the row's lock and keeps it until the transaction ends;
 uncommitted row versions are private to their writer, which is how PostgreSQL stores them.
 A guarded UPDATE first tests its WHERE clause on the row version it can see: a row that
 fails the test is not locked and not waited for; a row that passes and is locked by
 another transaction makes the statement wait and test again.
 Every interleaving is shown to leave the store that the committed transactions give when
 run one after another, each as a single step, in commit order.
 */
module Transactions {
  import opened Orders

  datatype CreatePhase =
    | Reserving(next: nat)
    | InsertOrder
    | InsertItems(oid: nat)
    | InsertPayment(oid: nat)
    | CreateReady(oid: nat, pid: nat)
    | Doomed  // a statement failed: rollback is all that is left

  datatype FinalisePhase =
    | Guard
    | UpdateOrder
    | SelectItems
    | Restocking(rows: seq<Item>, next: nat)
    | FinaliseReady
    | NothingToDo

  datatype Txn =
    | Creating(draft: Draft, cphase: CreatePhase, writes: Db)
    | Finalising(payment: nat, order: nat, outcome: Outcome, fphase: FinalisePhase, writes: Db)

  /** A committed transaction, with the ids it drew. */
  datatype Entry = Create(oid: nat, pid: nat, draft: Draft) | Finalise(payment: nat, outcome: Outcome)

  datatype System = System(committed: Db, txns: map<nat, Txn>, nextOrder: nat, nextPayment: nat, log: seq<Entry>)

  /** sortedCarts: intake sorts lines by product. sortedScans: the item query returns rows by product. */
  datatype Env = Env(users: set<int>, sortedCarts: bool, sortedScans: bool)

  datatype Row = PaymentRow(id: nat) | OrderRow(id: nat) | StockRow(product: int)

  datatype Action =
    | BeginCreate(t: nat, draft: Draft)
    | BeginFinalise(t: nat, pid: nat, outcome: Outcome)
    | Statement(t: nat, scan: seq<Item>)  // scan: the rows the item query returns, in its order
    | Commit(t: nat)
    | Abort(t: nat)  // a database error, a timeout or a crash, at any point

  const NoWrites := Db(map[], map[], map[], map[])

  function Merge(db: Db, w: Db): Db {
    Db(db.stock + w.stock, db.orders + w.orders, db.items + w.items, db.payments + w.payments)
  }

  // ---------------------------------------------------------------- row locks

  predicate Holds(x: Txn, r: Row) {
    match r
    case PaymentRow(id) => id in x.writes.payments
    case OrderRow(id) => id in x.writes.orders
    case StockRow(p) => p in x.writes.stock
  }

  /** The row the next statement has to lock, if the version it sees passes its WHERE clause. */
  function Wants(db: Db, x: Txn): Option<Row> {
    match x
    case Creating(d, Reserving(i), w) =>
      if i < |d.items| && Served(db.stock + w.stock, d.items[i]) then Some(StockRow(d.items[i].product)) else None
    case Finalising(pid, oid, o, Guard, w) =>
      if IsPending(db, pid) then Some(PaymentRow(pid)) else None
    case Finalising(pid, oid, o, UpdateOrder, w) =>
      if oid in db.orders && db.orders[oid].status == OrderPending then Some(OrderRow(oid)) else None
    case Finalising(pid, oid, o, Restocking(rows, i), w) =>
      if i < |rows| && rows[i].product in db.stock then Some(StockRow(rows[i].product)) else None
    case _ => None
  }

  predicate WaitsFor(s: System, t: nat, u: nat) {
    && t in s.txns && u in s.txns && t != u
    && Wants(s.committed, s.txns[t]).Some?
    && Holds(s.txns[u], Wants(s.committed, s.txns[t]).value)
  }

  predicate Blocked(s: System, t: nat) {
    exists u :: u in s.txns && WaitsFor(s, t, u)
  }

  // ---------------------------------------------------------------- one statement

  function AfterReserve(d: Draft, i: nat): CreatePhase {
    if i < |d.items| then Reserving(i) else InsertOrder
  }

  function AfterRestock(rows: seq<Item>, i: nat): FinalisePhase {
    if i < |rows| then Restocking(rows, i) else FinaliseReady
  }

  function CreateNext(env: Env, db: Db, d: Draft, ph: CreatePhase, w: Db, nextOrder: nat, nextPayment: nat): Txn {
    match ph
    case Reserving(i) =>
      var seen := db.stock + w.stock;
      if i < |d.items| && Served(seen, d.items[i]) then
        var p := d.items[i].product;
        Creating(d, AfterReserve(d, i + 1), w.(stock := w.stock[p := seen[p] - d.items[i].quantity]))
      else
        Creating(d, Doomed, w)
    case InsertOrder =>
      if d.user in env.users && d.total >= 0 then
        Creating(d, InsertItems(nextOrder), w.(orders := w.orders[nextOrder := NewOrder(d)]))
      else
        Creating(d, Doomed, w)
    case InsertItems(oid) =>
      if ValidLines(d.items) then
        Creating(d, InsertPayment(oid), w.(items := w.items[oid := d.items]))
      else
        Creating(d, Doomed, w)
    case InsertPayment(oid) =>
      if d.amount >= 0 then
        Creating(d, CreateReady(oid, nextPayment), w.(payments := w.payments[nextPayment := NewPayment(oid, d)]))
      else
        Creating(d, Doomed, w)
    case _ => Creating(d, ph, w)
  }

  function FinaliseNext(db: Db, pid: nat, oid: nat, o: Outcome, ph: FinalisePhase, w: Db, scan: seq<Item>): Txn {
    match ph
    case Guard =>
      if IsPending(db, pid) then
        Finalising(pid, oid, o, UpdateOrder, w.(payments := w.payments[pid := Resolved(db.payments[pid], o)]))
      else
        Finalising(pid, oid, o, NothingToDo, w)
    case UpdateOrder =>
      var w' := if oid in db.orders && db.orders[oid].status == OrderPending
                then w.(orders := w.orders[oid := Closed(db.orders[oid], o)]) else w;
      Finalising(pid, oid, o, if o.Charged? then FinaliseReady else SelectItems, w')
    case SelectItems =>
      Finalising(pid, oid, o, AfterRestock(scan, 0), w)
    case Restocking(rows, i) =>
      if i < |rows| then
        var p := rows[i].product;
        var seen := db.stock + w.stock;
        // Zero rows affected is not checked here.
        var w' := if p in seen then w.(stock := w.stock[p := seen[p] + rows[i].quantity]) else w;
        Finalising(pid, oid, o, AfterRestock(rows, i + 1), w')
      else
        Finalising(pid, oid, o, ph, w)
    case _ => Finalising(pid, oid, o, ph, w)
  }

  function Next(env: Env, s: System, x: Txn, scan: seq<Item>): Txn {
    match x
    case Creating(d, ph, w) => CreateNext(env, s.committed, d, ph, w, s.nextOrder, s.nextPayment)
    case Finalising(pid, oid, o, ph, w) => FinaliseNext(s.committed, pid, oid, o, ph, w, scan)
  }

  function Put(s: System, t: nat, x: Txn): System {
    s.(txns := s.txns[t := x])
  }

  function LogEntry(x: Txn): Entry
    requires MayCommit(x)
  {
    match x
    case Creating(d, CreateReady(oid, pid), _) => Create(oid, pid, d)
    case Finalising(pid, _, o, _, _) => Finalise(pid, o)
  }

  predicate MayCommit(x: Txn) {
    match x
    case Creating(_, ph, _) => ph.CreateReady?
    case Finalising(_, _, _, ph, _) => ph.FinaliseReady? || ph.NothingToDo?
  }

  predicate HasStatement(x: Txn) {
    match x
    case Creating(_, ph, _) => !ph.CreateReady? && !ph.Doomed?
    case Finalising(_, _, _, ph, _) => !ph.FinaliseReady? && !ph.NothingToDo?
  }

  // ---------------------------------------------------------------- steps and runs

  predicate Enabled(env: Env, s: System, a: Action) {
    match a
    case BeginCreate(t, d) =>
      // The idempotency key is a fresh UUID.
      && t !in s.txns
      && KeyFree(s.committed, d.key)
      && (forall u :: u in s.txns && s.txns[u].Creating? ==> s.txns[u].draft.key != d.key)
      && (env.sortedCarts ==> Ascending(d.items))
    case BeginFinalise(t, pid, o) =>
      // The worker loaded this payment row.
      t !in s.txns && pid in s.committed.payments
    case Statement(t, scan) =>
      && t in s.txns && HasStatement(s.txns[t]) && !Blocked(s, t)
      && (s.txns[t].Finalising? && s.txns[t].fphase.SelectItems? ==>
            && s.txns[t].order in s.committed.items
            && multiset(scan) == multiset(s.committed.items[s.txns[t].order])
            && (env.sortedScans ==> Ascending(scan)))
    case Commit(t) => t in s.txns && MayCommit(s.txns[t])
    case Abort(t) => t in s.txns
  }

  function Apply(env: Env, s: System, a: Action): System
    requires Enabled(env, s, a)
  {
    match a
    case BeginCreate(t, d) => Put(s, t, Creating(d, AfterReserve(d, 0), NoWrites))
    case BeginFinalise(t, pid, o) => Put(s, t, Finalising(pid, s.committed.payments[pid].order, o, Guard, NoWrites))
    case Statement(t, scan) =>
      // A sequence moves on even if its insert fails or is later rolled back.
      var x := s.txns[t];
      s.(txns := s.txns[t := Next(env, s, x, scan)],
         nextOrder := if x.Creating? && x.cphase.InsertOrder? then s.nextOrder + 1 else s.nextOrder,
         nextPayment := if x.Creating? && x.cphase.InsertPayment? then s.nextPayment + 1 else s.nextPayment)
    case Commit(t) =>
      s.(committed := Merge(s.committed, s.txns[t].writes), txns := s.txns - {t}, log := s.log + [LogEntry(s.txns[t])])
    case Abort(t) => s.(txns := s.txns - {t})
  }

  function Exec(env: Env, s: System, acts: seq<Action>): Option<System>
    decreases |acts|
  {
    if acts == [] then Some(s)
    else if Enabled(env, s, acts[0]) then Exec(env, Apply(env, s, acts[0]), acts[1..])
    else None
  }

  function Start(db: Db, nextOrder: nat, nextPayment: nat): System {
    System(db, map[], nextOrder, nextPayment, [])
  }

  // ---------------------------------------------------------------- the serial reference

  /** One committed transaction run alone, as a single step; None if it would have rolled back. */
  function Alone(users: set<int>, db: Db, e: Entry): Option<Db> {
    match e
    case Create(oid, pid, d) =>
      if Accepts(users, db, d) && oid !in db.orders && oid !in db.items && pid !in db.payments
      then Some(Created(db, oid, pid, d)) else None
    case Finalise(pid, o) => Some(Finalised(db, pid, o))
  }

  function Replay(users: set<int>, db: Db, log: seq<Entry>): Option<Db> {
    if log == [] then Some(db) else
    match Replay(users, db, log[..|log| - 1])
    case None => None
    case Some(before) => Alone(users, before, log[|log| - 1])
  }

  // ---------------------------------------------------------------- what a transaction has done so far

  function TakenPart(stock: map<int, int>, items: seq<Item>): map<int, int> {
    map p | p in stock && Touches(items, p) :: stock[p] - Qty(items, p)
  }

  function AddedPart(stock: map<int, int>, items: seq<Item>): map<int, int> {
    map p | p in stock && Touches(items, p) :: stock[p] + Qty(items, p)
  }

  function ReservedCount(d: Draft, ph: CreatePhase): nat {
    if ph.Reserving? && ph.next <= |d.items| then ph.next else |d.items|
  }

  function CreateWrites(db: Db, d: Draft, ph: CreatePhase): Db {
    Db(TakenPart(db.stock, d.items[..ReservedCount(d, ph)]),
       if ph.InsertItems? || ph.InsertPayment? || ph.CreateReady? then map[ph.oid := NewOrder(d)] else map[],
       if ph.InsertPayment? || ph.CreateReady? then map[ph.oid := d.items] else map[],
       if ph.CreateReady? then map[ph.pid := NewPayment(ph.oid, d)] else map[])
  }

  predicate ReservedSoFar(stock: map<int, int>, items: seq<Item>, k: nat) {
    k <= |items| &&
    forall j :: 0 <= j < k ==> items[j].product in stock && (Distinct(items) ==> Served(stock, items[j]))
  }

  predicate CreateOk(env: Env, db: Db, d: Draft, ph: CreatePhase, w: Db) {
    && KeyFree(db, d.key)
    && w == CreateWrites(db, d, ph)
    && (ph.Reserving? ==> ph.next < |d.items|)
    && ReservedSoFar(db.stock, d.items, ReservedCount(d, ph))
    && (ph.InsertItems? || ph.InsertPayment? || ph.CreateReady? ==>
          d.user in env.users && d.total >= 0 && ph.oid !in db.orders && ph.oid !in db.items)
    && (ph.InsertPayment? || ph.CreateReady? ==> ValidLines(d.items))
    && (ph.CreateReady? ==> d.amount >= 0 && ph.pid !in db.payments)
  }

  function FinaliseWrites(db: Db, pid: nat, oid: nat, o: Outcome, ph: FinalisePhase): Db
    requires pid in db.payments && oid in db.orders && oid in db.items
  {
    var stock := if ph.Restocking? && ph.next <= |ph.rows| then AddedPart(db.stock, ph.rows[..ph.next])
                 else if ph.FinaliseReady? && o.Declined? then AddedPart(db.stock, db.items[oid])
                 else map[];
    var orders := if ph.UpdateOrder? then map[] else map[oid := Closed(db.orders[oid], o)];
    Db(stock, orders, map[], map[pid := Resolved(db.payments[pid], o)])
  }

  predicate FinaliseOk(db: Db, pid: nat, oid: nat, o: Outcome, ph: FinalisePhase, w: Db) {
    && pid in db.payments && db.payments[pid].order == oid && oid in db.orders && oid in db.items
    && (ph.Guard? ==> w == NoWrites)
    && (ph.NothingToDo? ==> w == NoWrites && !IsPending(db, pid))
    && (!ph.Guard? && !ph.NothingToDo? ==> IsPending(db, pid) && w == FinaliseWrites(db, pid, oid, o, ph))
    && (ph.SelectItems? || ph.Restocking? ==> o.Declined?)
    && (ph.Restocking? ==> ph.next < |ph.rows| && multiset(ph.rows) == multiset(db.items[oid]))
  }

  predicate TxnOk(env: Env, db: Db, x: Txn) {
    match x
    case Creating(d, ph, w) => ph.Doomed? || CreateOk(env, db, d, ph, w)
    case Finalising(pid, oid, o, ph, w) => FinaliseOk(db, pid, oid, o, ph, w)
  }

  /** Row locks are exclusive, and fresh keys are fresh. */
  predicate Apart(x: Txn, y: Txn) {
    && x.writes.stock.Keys !! y.writes.stock.Keys
    && x.writes.orders.Keys !! y.writes.orders.Keys
    && x.writes.payments.Keys !! y.writes.payments.Keys
    && (x.Creating? && y.Creating? ==> x.draft.key != y.draft.key)
  }

  predicate TxnsOk(env: Env, s: System) {
    && (forall t :: t in s.txns ==> TxnOk(env, s.committed, s.txns[t]))
    && (forall t :: t in s.txns ==> IdsBelow(s.txns[t].writes, s.nextOrder, s.nextPayment))
    && (forall t, u :: t in s.txns && u in s.txns && t != u ==> Apart(s.txns[t], s.txns[u]))
  }

  predicate SysInv(env: Env, supply: map<int, int>, db0: Db, s: System) {
    && DbInv(supply, s.committed, s.nextOrder, s.nextPayment)
    && TxnsOk(env, s)
    && Replay(env.users, db0, s.log) == Some(s.committed)
  }

  // ---------------------------------------------------------------- each step keeps the invariant

  lemma TouchesSnoc(items: seq<Item>, i: nat, p: int)
    requires i < |items|
    ensures Touches(items[..i + 1], p) <==> Touches(items[..i], p) || items[i].product == p
    ensures Qty(items[..i + 1], p) == Qty(items[..i], p) + OfProduct(p)(items[i])
  {
    var short, long := items[..i], items[..i + 1];
    assert long == short + [items[i]];
    SumSnoc(short, items[i], OfProduct(p));
    if Touches(short, p) {
      var j :| 0 <= j < |short| && short[j].product == p;
      assert long[j].product == p;
    }
    if items[i].product == p {
      assert long[i].product == p;
    }
  }

  lemma TakenPartSnoc(stock: map<int, int>, items: seq<Item>, i: nat)
    requires i < |items| && items[i].product in stock
    ensures var p := items[i].product;
            var before := TakenPart(stock, items[..i]);
            TakenPart(stock, items[..i + 1]) == before[p := (stock + before)[p] - items[i].quantity]
  {
    forall p ensures Touches(items[..i + 1], p) <==> Touches(items[..i], p) || items[i].product == p
             ensures Qty(items[..i + 1], p) == Qty(items[..i], p) + OfProduct(p)(items[i]) {
      TouchesSnoc(items, i, p);
    }
    var p := items[i].product;
    if !Touches(items[..i], p) {
      QtyUntouched(items[..i], p);
    }
  }

  lemma AddedPartSnoc(stock: map<int, int>, items: seq<Item>, i: nat)
    requires i < |items| && items[i].product in stock
    ensures var p := items[i].product;
            var before := AddedPart(stock, items[..i]);
            AddedPart(stock, items[..i + 1]) == before[p := (stock + before)[p] + items[i].quantity]
  {
    forall p ensures Touches(items[..i + 1], p) <==> Touches(items[..i], p) || items[i].product == p
             ensures Qty(items[..i + 1], p) == Qty(items[..i], p) + OfProduct(p)(items[i]) {
      TouchesSnoc(items, i, p);
    }
    var p := items[i].product;
    if !Touches(items[..i], p) {
      QtyUntouched(items[..i], p);
    }
  }

  lemma AddedPartSkips(stock: map<int, int>, items: seq<Item>, i: nat)
    requires i < |items| && items[i].product !in stock
    ensures AddedPart(stock, items[..i + 1]) == AddedPart(stock, items[..i])
  {
    forall p | p in stock
      ensures Touches(items[..i + 1], p) <==> Touches(items[..i], p)
      ensures Qty(items[..i + 1], p) == Qty(items[..i], p)
    {
      TouchesSnoc(items, i, p);
    }
  }

  lemma AddedPartPermuted(stock: map<int, int>, a: seq<Item>, b: seq<Item>)
    requires multiset(a) == multiset(b)
    ensures AddedPart(stock, a) == AddedPart(stock, b)
  {
    forall p ensures Qty(a, p) == Qty(b, p) {
      SumPermutation(a, b, OfProduct(p));
    }
    forall p ensures Touches(a, p) <==> Touches(b, p) {
      TouchesPermuted(a, b, p);
      TouchesPermuted(b, a, p);
    }
  }

  lemma TouchesPermuted(a: seq<Item>, b: seq<Item>, p: int)
    requires multiset(a) == multiset(b)
    ensures Touches(a, p) ==> Touches(b, p)
  {
    if Touches(a, p) {
      var i :| 0 <= i < |a| && a[i].product == p;
      assert a[i] in multiset(b);
      assert a[i] in b;
    }
  }

  /** Replacing one transaction record is safe if the new record is. */
  lemma PutTxnsOk(env: Env, s: System, s': System, t: nat)
    requires TxnsOk(env, s)
    requires t in s'.txns && s'.txns == s.txns[t := s'.txns[t]] && s'.committed == s.committed
    requires s.nextOrder <= s'.nextOrder && s.nextPayment <= s'.nextPayment
    requires TxnOk(env, s.committed, s'.txns[t])
    requires IdsBelow(s'.txns[t].writes, s'.nextOrder, s'.nextPayment)
    requires forall u :: u in s.txns && u != t ==> Apart(s'.txns[t], s.txns[u]) && Apart(s.txns[u], s'.txns[t])
    ensures TxnsOk(env, s')
  {
    forall u | u in s'.txns
      ensures TxnOk(env, s'.committed, s'.txns[u]) && IdsBelow(s'.txns[u].writes, s'.nextOrder, s'.nextPayment) {
      if u != t {
        assert IdsBelow(s.txns[u].writes, s.nextOrder, s.nextPayment);
      }
    }
  }

  lemma PutKeeps(env: Env, supply: map<int, int>, db0: Db, s: System, s': System, t: nat)
    requires SysInv(env, supply, db0, s)
    requires TxnsOk(env, s')
    requires s'.committed == s.committed && s'.log == s.log
    requires s.nextOrder <= s'.nextOrder && s.nextPayment <= s'.nextPayment
    ensures SysInv(env, supply, db0, s')
  {
    DbInvGaps(supply, s.committed, s.nextOrder, s.nextPayment, s'.nextOrder, s'.nextPayment);
  }

  lemma ReservedMore(stock: map<int, int>, items: seq<Item>, i: nat)
    requires i < |items| && ReservedSoFar(stock, items, i)
    requires Served(stock + TakenPart(stock, items[..i]), items[i])
    ensures ReservedSoFar(stock, items, i + 1)
  {
    if Distinct(items) {
      assert !Touches(items[..i], items[i].product);
    }
  }

  lemma ReserveServed(env: Env, db: Db, d: Draft, i: nat)
    requires i < |d.items| && KeyFree(db, d.key)
    requires ReservedSoFar(db.stock, d.items, i + 1)
    ensures CreateOk(env, db, d, AfterReserve(d, i + 1), CreateWrites(db, d, AfterReserve(d, i + 1)))
  {
  }

  lemma ReserveWrites(db: Db, d: Draft, i: nat)
    requires i < |d.items| && d.items[i].product in db.stock
    ensures var p := d.items[i].product;
            var w := CreateWrites(db, d, Reserving(i));
            CreateWrites(db, d, AfterReserve(d, i + 1)) ==
                w.(stock := w.stock[p := (db.stock + w.stock)[p] - d.items[i].quantity])
    ensures ReservedCount(d, AfterReserve(d, i + 1)) == i + 1
  {
    TakenPartSnoc(db.stock, d.items, i);
  }

  lemma ReserveNext(env: Env, db: Db, d: Draft, i: nat, w: Db, nextOrder: nat, nextPayment: nat)
    requires i < |d.items| && w == CreateWrites(db, d, Reserving(i)) && d.items[i].product in db.stock
    ensures CreateNext(env, db, d, Reserving(i), w, nextOrder, nextPayment) ==
            if Served(db.stock + w.stock, d.items[i])
            then Creating(d, AfterReserve(d, i + 1), CreateWrites(db, d, AfterReserve(d, i + 1)))
            else Creating(d, Doomed, w)
  {
    ReserveWrites(db, d, i);
  }

  lemma ReserveOk(env: Env, db: Db, d: Draft, i: nat, w: Db, nextOrder: nat, nextPayment: nat)
    requires CreateOk(env, db, d, Reserving(i), w)
    ensures TxnOk(env, db, CreateNext(env, db, d, Reserving(i), w, nextOrder, nextPayment))
  {
    if Served(db.stock + w.stock, d.items[i]) {
      ReservedMore(db.stock, d.items, i);
      ReserveServed(env, db, d, i);
      ReserveNext(env, db, d, i, w, nextOrder, nextPayment);
    }
  }

  lemma InsertOk(env: Env, db: Db, d: Draft, ph: CreatePhase, w: Db, nextOrder: nat, nextPayment: nat)
    requires CreateOk(env, db, d, ph, w) && !ph.Reserving? && !ph.CreateReady?
    requires IdsBelow(db, nextOrder, nextPayment)
    ensures TxnOk(env, db, CreateNext(env, db, d, ph, w, nextOrder, nextPayment))
  {
  }

  lemma GuardOk(env: Env, db: Db, pid: nat, oid: nat, o: Outcome, w: Db, scan: seq<Item>)
    requires FinaliseOk(db, pid, oid, o, Guard, w)
    ensures TxnOk(env, db, FinaliseNext(db, pid, oid, o, Guard, w, scan))
  {
  }

  lemma UpdateOrderOk(env: Env, db: Db, pid: nat, oid: nat, o: Outcome, w: Db, scan: seq<Item>)
    requires FinaliseOk(db, pid, oid, o, UpdateOrder, w) && Coupled(db.payments[pid], db.orders[oid])
    ensures TxnOk(env, db, FinaliseNext(db, pid, oid, o, UpdateOrder, w, scan))
  {
  }

  lemma SelectItemsOk(env: Env, db: Db, pid: nat, oid: nat, o: Outcome, w: Db, scan: seq<Item>)
    requires FinaliseOk(db, pid, oid, o, SelectItems, w) && multiset(scan) == multiset(db.items[oid])
    ensures TxnOk(env, db, FinaliseNext(db, pid, oid, o, SelectItems, w, scan))
  {
    AddedPartPermuted(db.stock, scan, db.items[oid]);
    assert scan[..0] == [];
  }

  /** One more restocked line is the next part of what the transaction alone would have added. */
  lemma RestockedMore(stock: map<int, int>, rows: seq<Item>, i: nat)
    requires i < |rows|
    ensures var p, before := rows[i].product, AddedPart(stock, rows[..i]);
            AddedPart(stock, rows[..i + 1]) ==
            if p in stock + before then before[p := (stock + before)[p] + rows[i].quantity] else before
  {
    if rows[i].product in stock {
      AddedPartSnoc(stock, rows, i);
    } else {
      AddedPartSkips(stock, rows, i);
    }
  }

  lemma RestockWrites(db: Db, pid: nat, oid: nat, o: Outcome, rows: seq<Item>, i: nat)
    requires pid in db.payments && oid in db.orders && oid in db.items && o.Declined?
    requires i < |rows| && multiset(rows) == multiset(db.items[oid])
    ensures FinaliseWrites(db, pid, oid, o, AfterRestock(rows, i + 1)) ==
            FinaliseWrites(db, pid, oid, o, Restocking(rows, i)).(stock := AddedPart(db.stock, rows[..i + 1]))
  {
    if i + 1 == |rows| {
      assert rows[..i + 1] == rows;
      AddedPartPermuted(db.stock, rows, db.items[oid]);
    }
  }

  lemma RestockNext(db: Db, pid: nat, oid: nat, o: Outcome, rows: seq<Item>, i: nat, w: Db, scan: seq<Item>)
    requires pid in db.payments && oid in db.orders && oid in db.items && o.Declined?
    requires i < |rows| && multiset(rows) == multiset(db.items[oid])
    requires w == FinaliseWrites(db, pid, oid, o, Restocking(rows, i))
    ensures FinaliseNext(db, pid, oid, o, Restocking(rows, i), w, scan) ==
            Finalising(pid, oid, o, AfterRestock(rows, i + 1),
                       FinaliseWrites(db, pid, oid, o, AfterRestock(rows, i + 1)))
  {
    RestockedMore(db.stock, rows, i);
    RestockWrites(db, pid, oid, o, rows, i);
    assert w.stock == AddedPart(db.stock, rows[..i]);
  }

  lemma RestockOk(env: Env, db: Db, pid: nat, oid: nat, o: Outcome, rows: seq<Item>, i: nat, w: Db, scan: seq<Item>)
    requires FinaliseOk(db, pid, oid, o, Restocking(rows, i), w)
    ensures TxnOk(env, db, FinaliseNext(db, pid, oid, o, Restocking(rows, i), w, scan))
  {
    RestockNext(db, pid, oid, o, rows, i, w, scan);
  }

  lemma FinaliseNextOk(env: Env, db: Db, pid: nat, oid: nat, o: Outcome, ph: FinalisePhase, w: Db, scan: seq<Item>)
    requires FinaliseOk(db, pid, oid, o, ph, w) && Coupled(db.payments[pid], db.orders[oid])
    requires ph.SelectItems? ==> multiset(scan) == multiset(db.items[oid])
    ensures TxnOk(env, db, FinaliseNext(db, pid, oid, o, ph, w, scan))
  {
    match ph
    case Guard => GuardOk(env, db, pid, oid, o, w, scan);
    case UpdateOrder => UpdateOrderOk(env, db, pid, oid, o, w, scan);
    case SelectItems => SelectItemsOk(env, db, pid, oid, o, w, scan);
    case Restocking(rows, i) => RestockOk(env, db, pid, oid, o, rows, i, w, scan);
    case _ =>
  }

  /** A statement locks nothing beyond the row it wanted and the id it drew. */
  lemma NextLocks(env: Env, s: System, x: Txn, scan: seq<Item>, r: Row)
    requires TxnOk(env, s.committed, x) && HasStatement(x)
    requires Holds(Next(env, s, x, scan), r)
    ensures Holds(x, r) || Wants(s.committed, x) == Some(r) || r == OrderRow(s.nextOrder)
              || r == PaymentRow(s.nextPayment)
    ensures r == OrderRow(s.nextOrder) && !Holds(x, r) && Wants(s.committed, x) != Some(r) ==>
              x.Creating? && x.cphase.InsertOrder?
    ensures r == PaymentRow(s.nextPayment) && !Holds(x, r) && Wants(s.committed, x) != Some(r) ==>
              x.Creating? && x.cphase.InsertPayment?
  {
  }

  lemma ApartByRows(x: Txn, y: Txn)
    requires forall r :: Holds(x, r) ==> !Holds(y, r)
    requires x.Creating? && y.Creating? ==> x.draft.key != y.draft.key
    ensures Apart(x, y) && Apart(y, x)
  {
    forall p | p in x.writes.stock.Keys ensures p !in y.writes.stock.Keys {
      assert Holds(x, StockRow(p));
    }
    forall id | id in x.writes.orders.Keys ensures id !in y.writes.orders.Keys {
      assert Holds(x, OrderRow(id));
    }
    forall id | id in x.writes.payments.Keys ensures id !in y.writes.payments.Keys {
      assert Holds(x, PaymentRow(id));
    }
  }

  lemma NextSame(env: Env, s: System, x: Txn, scan: seq<Item>)
    ensures var x' := Next(env, s, x, scan); x'.Creating? == x.Creating? && (x.Creating? ==> x'.draft == x.draft)
  {
  }

  lemma StatementApart(env: Env, s: System, t: nat, u: nat, scan: seq<Item>, r: Row)
    requires TxnsOk(env, s) && t in s.txns && u in s.txns && t != u
    requires HasStatement(s.txns[t]) && !Blocked(s, t)
    requires Holds(Next(env, s, s.txns[t], scan), r)
    ensures !Holds(s.txns[u], r)
  {
    assert Apart(s.txns[t], s.txns[u]);
    assert TxnOk(env, s.committed, s.txns[t]);
    assert !WaitsFor(s, t, u);
    assert IdsBelow(s.txns[u].writes, s.nextOrder, s.nextPayment);
    NextLocks(env, s, s.txns[t], scan, r);
  }

  lemma NextOk(env: Env, s: System, x: Txn, scan: seq<Item>)
    requires TxnOk(env, s.committed, x) && HasStatement(x)
    requires IdsBelow(s.committed, s.nextOrder, s.nextPayment)
    requires x.Finalising? ==> OrderIntact(s.committed.stock, s.committed, x.payment)
    requires x.Finalising? && x.fphase.SelectItems? ==> multiset(scan) == multiset(s.committed.items[x.order])
    ensures TxnOk(env, s.committed, Next(env, s, x, scan))
  {
    match x
    case Creating(d, ph, w) =>
      if ph.Reserving? {
        ReserveOk(env, s.committed, d, ph.next, w, s.nextOrder, s.nextPayment);
      } else {
        InsertOk(env, s.committed, d, ph, w, s.nextOrder, s.nextPayment);
      }
    case Finalising(pid, oid, o, ph, w) =>
      FinaliseNextOk(env, s.committed, pid, oid, o, ph, w, scan);
  }

  lemma NextIds(env: Env, s: System, x: Txn, scan: seq<Item>)
    requires TxnOk(env, s.committed, x) && HasStatement(x)
    requires IdsBelow(s.committed, s.nextOrder, s.nextPayment) && IdsBelow(x.writes, s.nextOrder, s.nextPayment)
    ensures IdsBelow(Next(env, s, x, scan).writes,
                     if x.Creating? && x.cphase.InsertOrder? then s.nextOrder + 1 else s.nextOrder,
                     if x.Creating? && x.cphase.InsertPayment? then s.nextPayment + 1 else s.nextPayment)
  {
    if x.Creating? && x.cphase.InsertItems? {
      assert x.cphase.oid in x.writes.orders;
    }
  }

  lemma StatementTxnsOk(env: Env, s: System, t: nat, scan: seq<Item>)
    requires TxnsOk(env, s) && Enabled(env, s, Statement(t, scan))
    requires IdsBelow(s.committed, s.nextOrder, s.nextPayment)
    requires s.txns[t].Finalising? && s.txns[t].payment in s.committed.payments ==>
               OrderIntact(s.committed.stock, s.committed, s.txns[t].payment)
    ensures TxnsOk(env, Apply(env, s, Statement(t, scan)))
  {
    var s' := Apply(env, s, Statement(t, scan));
    var x := s.txns[t];
    assert TxnOk(env, s.committed, x) && IdsBelow(x.writes, s.nextOrder, s.nextPayment);
    NextOk(env, s, x, scan);
    NextIds(env, s, x, scan);
    forall u | u in s.txns && u != t ensures Apart(s'.txns[t], s.txns[u]) && Apart(s.txns[u], s'.txns[t]) {
      forall r | Holds(s'.txns[t], r) ensures !Holds(s.txns[u], r) {
        StatementApart(env, s, t, u, scan, r);
      }
      NextSame(env, s, x, scan);
      assert Apart(x, s.txns[u]);
      ApartByRows(s'.txns[t], s.txns[u]);
    }
    PutTxnsOk(env, s, s', t);
  }

  lemma StatementKeeps(env: Env, supply: map<int, int>, db0: Db, s: System, t: nat, scan: seq<Item>)
    requires SysInv(env, supply, db0, s) && Enabled(env, s, Statement(t, scan))
    ensures SysInv(env, supply, db0, Apply(env, s, Statement(t, scan)))
  {
    StatementTxnsOk(env, s, t, scan);
    PutKeeps(env, supply, db0, s, Apply(env, s, Statement(t, scan)), t);
  }

  lemma BeginKeeps(env: Env, supply: map<int, int>, db0: Db, s: System, a: Action)
    requires SysInv(env, supply, db0, s) && Enabled(env, s, a) && (a.BeginCreate? || a.BeginFinalise?)
    ensures SysInv(env, supply, db0, Apply(env, s, a))
  {
    if a.BeginCreate? {
      BeginCreateTxnsOk(env, s, a.t, a.draft);
    } else {
      BeginFinaliseTxnsOk(env, s, a.t, a.pid, a.outcome);
    }
    PutKeeps(env, supply, db0, s, Apply(env, s, a), a.t);
  }

  lemma BeginCreateTxnsOk(env: Env, s: System, t: nat, d: Draft)
    requires TxnsOk(env, s) && Enabled(env, s, BeginCreate(t, d))
    ensures TxnsOk(env, Apply(env, s, BeginCreate(t, d)))
  {
    assert d.items[..0] == [];
    assert TakenPart(s.committed.stock, []) == map[];
    assert CreateOk(env, s.committed, d, AfterReserve(d, 0), NoWrites);
    PutTxnsOk(env, s, Apply(env, s, BeginCreate(t, d)), t);
  }

  lemma BeginFinaliseTxnsOk(env: Env, s: System, t: nat, pid: nat, o: Outcome)
    requires TxnsOk(env, s) && Enabled(env, s, BeginFinalise(t, pid, o))
    requires OrderIntact(s.committed.stock, s.committed, pid)
    ensures TxnsOk(env, Apply(env, s, BeginFinalise(t, pid, o)))
  {
    PutTxnsOk(env, s, Apply(env, s, BeginFinalise(t, pid, o)), t);
  }

  /** Any open transaction may be rolled back at any point; the committed rows and all others are as before. */
  lemma AbortAnytime(env: Env, s: System, t: nat)
    requires t in s.txns
    ensures Enabled(env, s, Abort(t))
    ensures var s' := Apply(env, s, Abort(t));
            && s'.committed == s.committed && s'.log == s.log && t !in s'.txns
            && forall u :: u in s.txns && u != t ==> u in s'.txns && s'.txns[u] == s.txns[u]
  {
  }

  lemma AbortKeeps(env: Env, supply: map<int, int>, db0: Db, s: System, t: nat)
    requires SysInv(env, supply, db0, s) && t in s.txns
    ensures SysInv(env, supply, db0, Apply(env, s, Abort(t)))
  {
  }

  lemma MergedTake(stock: map<int, int>, items: seq<Item>)
    ensures stock + TakenPart(stock, items) == Take(stock, items)
    ensures stock + AddedPart(stock, items) == Restock(stock, items)
  {
    forall p | p in stock && !Touches(items, p) ensures Qty(items, p) == 0 {
      QtyUntouched(items, p);
    }
  }

  lemma MergedOne<K, V>(m: map<K, V>, k: K, v: V)
    ensures m + map[k := v] == m[k := v]
  {
  }

  lemma CreateMerges(db: Db, d: Draft, oid: nat, pid: nat)
    ensures Merge(db, CreateWrites(db, d, CreateReady(oid, pid))) == Created(db, oid, pid, d)
  {
    assert d.items[..|d.items|] == d.items;
    MergedTake(db.stock, d.items);
    MergedOne(db.orders, oid, NewOrder(d));
    MergedOne(db.items, oid, d.items);
    MergedOne(db.payments, pid, NewPayment(oid, d));
  }

  /** A create that reached commit is one the single-step create accepts, and leaves the same rows. */
  lemma CreateCommits(env: Env, db: Db, d: Draft, oid: nat, pid: nat, w: Db)
    requires CreateOk(env, db, d, CreateReady(oid, pid), w)
    ensures Alone(env.users, db, Create(oid, pid, d)) == Some(Merge(db, w))
  {
    CreateMerges(db, d, oid, pid);
  }

  lemma FinaliseMerges(db: Db, pid: nat, oid: nat, o: Outcome)
    requires IsPending(db, pid) && db.payments[pid].order == oid && oid in db.orders && oid in db.items
    ensures Merge(db, FinaliseWrites(db, pid, oid, o, FinaliseReady)) == Finalised(db, pid, o)
  {
    MergedTake(db.stock, db.items[oid]);
    MergedOne(db.orders, oid, Closed(db.orders[oid], o));
    MergedOne(db.payments, pid, Resolved(db.payments[pid], o));
    assert db.stock + map[] == db.stock && db.items + map[] == db.items;
  }

  lemma FinaliseCommits(db: Db, pid: nat, oid: nat, o: Outcome, ph: FinalisePhase, w: Db)
    requires FinaliseOk(db, pid, oid, o, ph, w) && (ph.FinaliseReady? || ph.NothingToDo?)
    ensures Merge(db, w) == Finalised(db, pid, o)
  {
    if ph.FinaliseReady? {
      FinaliseMerges(db, pid, oid, o);
    }
  }

  lemma ReservedSame(stock: map<int, int>, stock': map<int, int>, items: seq<Item>, k: nat)
    requires ReservedSoFar(stock, items, k) && stock'.Keys == stock.Keys
    requires forall p :: p in TakenPart(stock, items[..k]) ==> stock'[p] == stock[p]
    ensures ReservedSoFar(stock', items, k)
    ensures TakenPart(stock', items[..k]) == TakenPart(stock, items[..k])
  {
    forall j | 0 <= j < k ensures stock'[items[j].product] == stock[items[j].product] {
      assert items[..k][j] == items[j];
      assert Touches(items[..k], items[j].product);
    }
  }

  /** A committing transaction brings in only rows it locked: known stock rows, its own order and payment. */
  lemma CommittedRows(env: Env, db: Db, x: Txn)
    requires TxnOk(env, db, x) && MayCommit(x)
    ensures x.writes.stock.Keys <= db.stock.Keys
    ensures x.writes.items.Keys <= x.writes.orders.Keys
    ensures forall pid :: pid in x.writes.payments ==>
              x.writes.payments[pid].key == if x.Creating? then x.draft.key
                  else if pid in db.payments then db.payments[pid].key else ""
    ensures x.Finalising? ==> x.writes.payments.Keys <= db.payments.Keys
  {
  }

  /** Another transaction's commit takes no key a creating transaction relies on being free. */
  lemma CommitKeepsKeyFree(env: Env, db: Db, x: Txn, key: string)
    requires TxnOk(env, db, x) && MayCommit(x) && KeyFree(db, key)
    requires x.Creating? ==> x.draft.key != key
    ensures KeyFree(Merge(db, x.writes), key)
  {
    CommittedRows(env, db, x);
  }

  /** Nor does it change the stock rows the other has reserved. */
  lemma CommitKeepsReserved(env: Env, db: Db, x: Txn, items: seq<Item>, k: nat)
    requires TxnOk(env, db, x) && MayCommit(x) && ReservedSoFar(db.stock, items, k)
    requires x.writes.stock.Keys !! TakenPart(db.stock, items[..k]).Keys
    ensures ReservedSoFar(Merge(db, x.writes).stock, items, k)
    ensures TakenPart(Merge(db, x.writes).stock, items[..k]) == TakenPart(db.stock, items[..k])
  {
    CommittedRows(env, db, x);
    var taken := TakenPart(db.stock, items[..k]);
    assert forall p :: p in taken ==> p in taken.Keys && p !in x.writes.stock.Keys;
    ReservedSame(db.stock, Merge(db, x.writes).stock, items, k);
  }

  /** Nor does it take an id the other has drawn. */
  lemma CommitKeepsIds(env: Env, db: Db, x: Txn, d: Draft, ph: CreatePhase, w: Db)
    requires TxnOk(env, db, x) && MayCommit(x)
    requires CreateOk(env, db, d, ph, w)
    requires x.writes.orders.Keys !! w.orders.Keys && x.writes.payments.Keys !! w.payments.Keys
    ensures ph.InsertItems? || ph.InsertPayment? || ph.CreateReady? ==>
              ph.oid !in Merge(db, x.writes).orders && ph.oid !in Merge(db, x.writes).items
    ensures ph.CreateReady? ==> ph.pid !in Merge(db, x.writes).payments
  {
    CommittedRows(env, db, x);
    assert ph.InsertItems? || ph.InsertPayment? || ph.CreateReady? ==> ph.oid in w.orders.Keys;
    assert ph.CreateReady? ==> ph.pid in w.payments.Keys;
  }

  /** Another transaction's commit does not touch what a creating transaction has locked or relied on. */
  lemma CommitKeepsCreate(env: Env, db: Db, x: Txn, d: Draft, ph: CreatePhase, w: Db)
    requires TxnOk(env, db, x) && MayCommit(x)
    requires CreateOk(env, db, d, ph, w) && Apart(x, Creating(d, ph, w))
    ensures CreateOk(env, Merge(db, x.writes), d, ph, w)
  {
    CommitKeepsKeyFree(env, db, x, d.key);
    CommitKeepsReserved(env, db, x, d.items, ReservedCount(d, ph));
    CommitKeepsIds(env, db, x, d, ph, w);
  }

  lemma CommitKeepsFinalise(env: Env, db: Db, x: Txn, pid: nat, oid: nat, o: Outcome, ph: FinalisePhase, w: Db)
    requires TxnOk(env, db, x) && MayCommit(x)
    requires FinaliseOk(db, pid, oid, o, ph, w) && Apart(x, Finalising(pid, oid, o, ph, w))
    ensures FinaliseOk(Merge(db, x.writes), pid, oid, o, ph, w)
  {
    var db' := Merge(db, x.writes);
    assert db'.stock.Keys == db.stock.Keys;
    assert db'.items[oid] == db.items[oid];
    if !ph.Guard? && !ph.NothingToDo? {
      assert pid in w.payments.Keys;
      assert ph.UpdateOrder? || oid in w.orders.Keys;
      FinaliseWritesSame(db, db', pid, oid, o, ph, w, x);
    }
  }

  lemma AddedPartSame(stock: map<int, int>, stock': map<int, int>, items: seq<Item>)
    requires stock'.Keys == stock.Keys
    requires forall p :: p in AddedPart(stock, items).Keys ==> stock'[p] == stock[p]
    ensures AddedPart(stock', items) == AddedPart(stock, items)
  {
    forall p | p in stock && Touches(items, p) ensures stock'[p] == stock[p] {
      assert p in AddedPart(stock, items).Keys;
    }
  }

  /** The lines whose restock is among the writes so far. */
  function Restocked(db: Db, oid: nat, o: Outcome, ph: FinalisePhase): seq<Item>
    requires oid in db.items
  {
    if ph.Restocking? && ph.next <= |ph.rows| then ph.rows[..ph.next]
    else if ph.FinaliseReady? && o.Declined? then db.items[oid]
    else []
  }

  lemma RestockedWrites(db: Db, pid: nat, oid: nat, o: Outcome, ph: FinalisePhase)
    requires pid in db.payments && oid in db.orders && oid in db.items
    ensures FinaliseWrites(db, pid, oid, o, ph).stock == AddedPart(db.stock, Restocked(db, oid, o, ph))
  {
    assert AddedPart(db.stock, []) == map[];
  }

  lemma FinaliseWritesSame(db: Db, db': Db, pid: nat, oid: nat, o: Outcome, ph: FinalisePhase, w: Db, x: Txn)
    requires FinaliseOk(db, pid, oid, o, ph, w) && !ph.Guard? && !ph.NothingToDo?
    requires db' == Merge(db, x.writes) && Apart(x, Finalising(pid, oid, o, ph, w))
    requires db'.stock.Keys == db.stock.Keys && oid in db'.items && db'.items[oid] == db.items[oid]
    ensures FinaliseWrites(db', pid, oid, o, ph) == w
  {
    assert pid in w.payments.Keys;
    assert ph.UpdateOrder? || oid in w.orders.Keys;
    RestockedWrites(db, pid, oid, o, ph);
    RestockedWrites(db', pid, oid, o, ph);
    forall p | p in w.stock.Keys ensures db'.stock[p] == db.stock[p] {
      assert p !in x.writes.stock.Keys;
    }
    AddedPartSame(db.stock, db'.stock, Restocked(db, oid, o, ph));
  }

  lemma CommitTxnsOk(env: Env, s: System, t: nat)
    requires TxnsOk(env, s) && Enabled(env, s, Commit(t))
    ensures TxnsOk(env, Apply(env, s, Commit(t)))
  {
    var s' := Apply(env, s, Commit(t));
    var x := s.txns[t];
    assert TxnOk(env, s.committed, x);
    forall u | u in s'.txns ensures TxnOk(env, s'.committed, s'.txns[u]) {
      assert TxnOk(env, s.committed, s.txns[u]) && Apart(x, s.txns[u]);
      match s.txns[u]
      case Creating(d, ph, w) => if !ph.Doomed? { CommitKeepsCreate(env, s.committed, x, d, ph, w); }
      case Finalising(pid, oid, o, ph, w) => CommitKeepsFinalise(env, s.committed, x, pid, oid, o, ph, w);
    }
  }

  lemma CommitStore(env: Env, supply: map<int, int>, db: Db, x: Txn, nextOrder: nat, nextPayment: nat)
    requires DbInv(supply, db, nextOrder, nextPayment)
    requires TxnOk(env, db, x) && MayCommit(x) && IdsBelow(x.writes, nextOrder, nextPayment)
    ensures Alone(env.users, db, LogEntry(x)) == Some(Merge(db, x.writes))
    ensures DbInv(supply, Merge(db, x.writes), nextOrder, nextPayment)
  {
    match x
    case Creating(d, CreateReady(oid, pid), w) =>
      CreateCommits(env, db, d, oid, pid, w);
      assert oid in w.orders && pid in w.payments;
      CreatedKeeps(supply, env.users, db, oid, pid, d, nextOrder, nextPayment);
    case Finalising(pid, oid, o, ph, w) =>
      FinaliseCommits(db, pid, oid, o, ph, w);
      FinalisedKeeps(supply, db, pid, o, nextOrder, nextPayment);
  }

  lemma ReplaySnoc(users: set<int>, db: Db, log: seq<Entry>, e: Entry)
    requires Replay(users, db, log).Some?
    ensures Replay(users, db, log + [e]) == Alone(users, Replay(users, db, log).value, e)
  {
    assert (log + [e])[..|log|] == log;
  }

  lemma CommitKeeps(env: Env, supply: map<int, int>, db0: Db, s: System, t: nat)
    requires SysInv(env, supply, db0, s) && Enabled(env, s, Commit(t))
    ensures SysInv(env, supply, db0, Apply(env, s, Commit(t)))
  {
    CommitTxnsOk(env, s, t);
    CommitStore(env, supply, s.committed, s.txns[t], s.nextOrder, s.nextPayment);
    ReplaySnoc(env.users, db0, s.log, LogEntry(s.txns[t]));
  }

  lemma StepKeeps(env: Env, supply: map<int, int>, db0: Db, s: System, a: Action)
    requires SysInv(env, supply, db0, s) && Enabled(env, s, a)
    ensures SysInv(env, supply, db0, Apply(env, s, a))
  {
    match a
    case BeginCreate(_, _) => BeginKeeps(env, supply, db0, s, a);
    case BeginFinalise(_, _, _) => BeginKeeps(env, supply, db0, s, a);
    case Statement(t, scan) => StatementKeeps(env, supply, db0, s, t, scan);
    case Commit(t) => CommitKeeps(env, supply, db0, s, t);
    case Abort(t) => AbortKeeps(env, supply, db0, s, t);
  }

  lemma {:induction false} RunKeeps(env: Env, supply: map<int, int>, db0: Db, s: System, acts: seq<Action>)
    requires SysInv(env, supply, db0, s) && Exec(env, s, acts).Some?
    ensures SysInv(env, supply, db0, Exec(env, s, acts).value)
    decreases |acts|
  {
    if acts != [] {
      StepKeeps(env, supply, db0, s, acts[0]);
      RunKeeps(env, supply, db0, Apply(env, s, acts[0]), acts[1..]);
    }
  }

  /**
   Every interleaving of any number of transactions leaves exactly the store that the
   committed ones give when run one at a time in commit order, none of them rejected;
   aborted and unfinished ones leave no trace. Stock is conserved and statuses stay
   coupled in the committed store throughout.
   */
  lemma Serialisable(env: Env, supply: map<int, int>, db0: Db, nextOrder: nat, nextPayment: nat, acts: seq<Action>)
    requires DbInv(supply, db0, nextOrder, nextPayment)
    requires Exec(env, Start(db0, nextOrder, nextPayment), acts).Some?
    ensures var s := Exec(env, Start(db0, nextOrder, nextPayment), acts).value;
            && Replay(env.users, db0, s.log) == Some(s.committed)
            && DbInv(supply, s.committed, s.nextOrder, s.nextPayment)
  {
    RunKeeps(env, supply, db0, Start(db0, nextOrder, nextPayment), acts);
  }

  lemma {:induction false} ReplayedDraft(users: set<int>, db: Db, log: seq<Entry>, i: nat)
    requires Replay(users, db, log).Some? && i < |log| && log[i].Create?
    ensures Drafted(Replay(users, db, log).value, log[i].pid, log[i].draft)
    ensures Replay(users, db, log).value.payments[log[i].pid].order == log[i].oid
  {
    var front, e := log[..|log| - 1], log[|log| - 1];
    var before := Replay(users, db, front).value;
    if i == |front| {
      CreatedDraft(before, e.oid, e.pid, e.draft);
    } else {
      assert front[i] == log[i];
      ReplayedDraft(users, db, front, i);
      match e
      case Create(oid, pid, d) => CreatedKeepsDraft(before, oid, pid, d, log[i].pid, log[i].draft);
      case Finalise(pid, o) => FinalisedKeepsDraft(before, pid, o, log[i].pid, log[i].draft);
    }
  }

  /**
   In every interleaving each committed create's rows are on file with the drafted user, total,
   lines, key and amount, whatever committed after it.
   */
  lemma CommittedAsDrafted(env: Env, supply: map<int, int>, db0: Db, nextOrder: nat, nextPayment: nat,
                           acts: seq<Action>, i: nat)
    requires DbInv(supply, db0, nextOrder, nextPayment)
    requires Exec(env, Start(db0, nextOrder, nextPayment), acts).Some?
    requires i < |Exec(env, Start(db0, nextOrder, nextPayment), acts).value.log|
    requires Exec(env, Start(db0, nextOrder, nextPayment), acts).value.log[i].Create?
    ensures var s := Exec(env, Start(db0, nextOrder, nextPayment), acts).value;
            var oid, pid, d := s.log[i].oid, s.log[i].pid, s.log[i].draft;
            && pid in s.committed.payments && oid in s.committed.orders && oid in s.committed.items
            && s.committed.payments[pid].order == oid
            && s.committed.payments[pid].key == d.key && s.committed.payments[pid].amount == d.amount
            && s.committed.orders[oid].user == d.user && s.committed.orders[oid].total == d.total
            && s.committed.items[oid] == d.items
  {
    Serialisable(env, supply, db0, nextOrder, nextPayment, acts);
    var s := Exec(env, Start(db0, nextOrder, nextPayment), acts).value;
    ReplayedDraft(env.users, db0, s.log, i);
  }
}
