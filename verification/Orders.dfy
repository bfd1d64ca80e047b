/**
 The rows the order lifecycle reads and writes, and the three transactions on them
 taken as single steps: create an order, mark it paid, cancel it and restock.
 Money is in integer cents.
 */
module Orders {

  datatype Option<+T> = None | Some(value: T)

  datatype OrderStatus = OrderPending | Confirmed | Shipped | Delivered | Cancelled

  datatype PaymentStatus = PaymentPending | Paid | Failed | Refunded

  datatype Item = Item(product: int, quantity: int, price: int)

  datatype Order = Order(user: int, status: OrderStatus, total: int)

  datatype Payment = Payment(order: nat, key: string, status: PaymentStatus, amount: int, txn: Option<string>)

  datatype Db = Db(stock: map<int, int>, orders: map<nat, Order>, items: map<nat, seq<Item>>,
                   payments: map<nat, Payment>)

  /** What intake hands to the repository: the order, its lines and its payment, before ids exist. */
  datatype Draft = Draft(user: int, items: seq<Item>, total: int, key: string, amount: int)

  /** How charging ended: accepted with a provider transaction id, or given up. */
  datatype Outcome = Charged(txn: string) | Declined

  // ---------------------------------------------------------------- sums over lines

  function Sum(items: seq<Item>, weight: Item -> int): int {
    if items == [] then 0 else Sum(items[..|items| - 1], weight) + weight(items[|items| - 1])
  }

  function OfProduct(p: int): Item -> int {
    (i: Item) => if i.product == p then i.quantity else 0
  }

  function LineCost(): Item -> int {
    (i: Item) => i.price * i.quantity
  }

  /** What a list of lines costs: price times quantity, added up. */
  function Bill(items: seq<Item>): int {
    if items == [] then 0
    else Bill(items[..|items| - 1]) + items[|items| - 1].price * items[|items| - 1].quantity
  }

  /** Quantity of product p over all lines. */
  function Qty(items: seq<Item>, p: int): int {
    Sum(items, OfProduct(p))
  }

  lemma SumSnoc(items: seq<Item>, x: Item, weight: Item -> int)
    ensures Sum(items + [x], weight) == Sum(items, weight) + weight(x)
  {
    assert (items + [x])[..|items|] == items;
  }

  lemma {:induction false} SumConcat(a: seq<Item>, b: seq<Item>, weight: Item -> int)
    ensures Sum(a + b, weight) == Sum(a, weight) + Sum(b, weight)
  {
    if b == [] {
      assert a + b == a;
    } else {
      var front, x := b[..|b| - 1], b[|b| - 1];
      assert a + b == (a + front) + [x] && b == front + [x];
      SumSnoc(a + front, x, weight);
      SumConcat(a, front, weight);
    }
  }

  lemma BillSnoc(items: seq<Item>, x: Item)
    ensures Bill(items + [x]) == Bill(items) + x.price * x.quantity
  {
    assert (items + [x])[..|items|] == items;
  }

  lemma {:induction false} CostIsBill(items: seq<Item>)
    ensures Sum(items, LineCost()) == Bill(items)
  {
    if items != [] {
      CostIsBill(items[..|items| - 1]);
    }
  }

  /** A sum over lines does not depend on the order of the lines. */
  lemma {:induction false} SumPermutation(a: seq<Item>, b: seq<Item>, weight: Item -> int)
    requires multiset(a) == multiset(b)
    ensures Sum(a, weight) == Sum(b, weight)
    decreases |a|
  {
    if a == [] {
      assert |multiset(b)| == 0;
    } else {
      var front, x := a[..|a| - 1], a[|a| - 1];
      assert a == front + [x];
      assert x in multiset(b);
      var j :| 0 <= j < |b| && b[j] == x;
      var rest := b[..j] + b[j + 1..];
      assert b == b[..j] + [x] + b[j + 1..];
      assert multiset(front) == multiset(a) - multiset{x};
      assert multiset(rest) == multiset(b) - multiset{x};
      SumPermutation(front, rest, weight);
      SumSnoc(b[..j], x, weight);
      SumConcat(b[..j] + [x], b[j + 1..], weight);
      SumConcat(b[..j], b[j + 1..], weight);
    }
  }

  predicate Touches(items: seq<Item>, p: int) {
    exists i :: 0 <= i < |items| && items[i].product == p
  }

  lemma {:induction false} QtyUntouched(items: seq<Item>, p: int)
    requires !Touches(items, p)
    ensures Qty(items, p) == 0
  {
    if items != [] {
      var front := items[..|items| - 1];
      assert forall i :: 0 <= i < |front| ==> front[i] == items[i];
      QtyUntouched(front, p);
    }
  }

  predicate Distinct(items: seq<Item>) {
    forall i, j :: 0 <= i < j < |items| ==> items[i].product != items[j].product
  }

  predicate Ascending(items: seq<Item>) {
    forall i, j :: 0 <= i < j < |items| ==> items[i].product < items[j].product
  }

  /** With distinct lines, a line's quantity is all there is of its product. */
  lemma {:induction false} QtyOfLine(items: seq<Item>, i: nat)
    requires Distinct(items) && i < |items|
    ensures Qty(items, items[i].product) == items[i].quantity
  {
    var front := items[..|items| - 1];
    assert forall j :: 0 <= j < |front| ==> front[j] == items[j];
    if i == |items| - 1 {
      QtyUntouched(front, items[i].product);
    } else {
      QtyOfLine(front, i);
    }
  }

  lemma {:induction false} QtyNonNegative(items: seq<Item>, p: int)
    requires forall i :: 0 <= i < |items| ==> items[i].quantity > 0
    ensures Qty(items, p) >= 0
  {
    if items != [] {
      QtyNonNegative(items[..|items| - 1], p);
    }
  }

  // ---------------------------------------------------------------- the transactions as single steps

  /** The row checks on order_items: one row per product, positive quantity, non-negative price, at least one row. */
  predicate ValidLines(items: seq<Item>) {
    && items != []
    && Distinct(items)
    && forall i :: 0 <= i < |items| ==> items[i].quantity > 0 && items[i].price >= 0
  }

  /** Line i can be served from the stock as it stands. */
  predicate Served(stock: map<int, int>, line: Item) {
    line.product in stock && line.quantity <= stock[line.product]
  }

  predicate Covers(stock: map<int, int>, items: seq<Item>) {
    forall i :: 0 <= i < |items| ==> Served(stock, items[i])
  }

  predicate KeyFree(db: Db, key: string) {
    forall pid :: pid in db.payments ==> db.payments[pid].key != key
  }

  /** Whether the create transaction commits when nothing runs beside it and no statement errors. */
  predicate Accepts(users: set<int>, db: Db, d: Draft) {
    && ValidLines(d.items) && Covers(db.stock, d.items)
    && d.user in users && d.total >= 0 && d.amount >= 0
    && KeyFree(db, d.key)
  }

  function Take(stock: map<int, int>, items: seq<Item>): map<int, int> {
    map p | p in stock :: stock[p] - Qty(items, p)
  }

  function Restock(stock: map<int, int>, items: seq<Item>): map<int, int> {
    map p | p in stock :: stock[p] + Qty(items, p)
  }

  function NewOrder(d: Draft): Order {
    Order(d.user, OrderPending, d.total)
  }

  function NewPayment(oid: nat, d: Draft): Payment {
    Payment(oid, d.key, PaymentPending, d.amount, None)
  }

  function Created(db: Db, oid: nat, pid: nat, d: Draft): Db {
    Db(Take(db.stock, d.items),
       db.orders[oid := NewOrder(d)],
       db.items[oid := d.items],
       db.payments[pid := NewPayment(oid, d)])
  }

  function Resolved(pay: Payment, o: Outcome): Payment {
    match o
    case Charged(txn) => pay.(status := Paid, txn := Some(txn))
    case Declined => pay.(status := Failed)
  }

  function Closed(order: Order, o: Outcome): Order {
    if order.status == OrderPending then
      order.(status := if o.Charged? then Confirmed else Cancelled)
    else
      order
  }

  predicate IsPending(db: Db, pid: nat) {
    pid in db.payments && db.payments[pid].status == PaymentPending
  }

  /** The finalise transactions: nothing at all unless the payment is still pending. */
  function Finalised(db: Db, pid: nat, o: Outcome): Db {
    if !IsPending(db, pid) then db else
    var pay := db.payments[pid];
    var orders := if pay.order in db.orders then db.orders[pay.order := Closed(db.orders[pay.order], o)] else db.orders;
    var stock := if o.Declined? && pay.order in db.items then Restock(db.stock, db.items[pay.order]) else db.stock;
    Db(stock, orders, db.items, db.payments[pid := Resolved(pay, o)])
  }

  // ---------------------------------------------------------------- the same, row by row

  /** When the create is accepted, with every test written out. */
  lemma AcceptsMeans(users: set<int>, db: Db, d: Draft)
    ensures Accepts(users, db, d) <==>
              && d.items != []
              && (forall i, j :: 0 <= i < j < |d.items| ==> d.items[i].product != d.items[j].product)
              && (forall i :: 0 <= i < |d.items| ==> d.items[i].quantity > 0 && d.items[i].price >= 0)
              && (forall i :: 0 <= i < |d.items| ==>
                    d.items[i].product in db.stock && d.items[i].quantity <= db.stock[d.items[i].product])
              && d.user in users && d.total >= 0 && d.amount >= 0
              && (forall pid :: pid in db.payments ==> db.payments[pid].key != d.key)
  {
    assert Covers(db.stock, d.items) <==>
           forall i :: 0 <= i < |d.items| ==>
             d.items[i].product in db.stock && d.items[i].quantity <= db.stock[d.items[i].product];
  }

  /** What taking distinct lines leaves of each product. */
  lemma TakeRows(stock: map<int, int>, items: seq<Item>)
    requires Distinct(items)
    ensures Take(stock, items).Keys == stock.Keys
    ensures forall i :: 0 <= i < |items| && items[i].product in stock ==>
              Take(stock, items)[items[i].product] == stock[items[i].product] - items[i].quantity
    ensures forall p :: p in stock && (forall i :: 0 <= i < |items| ==> items[i].product != p) ==>
              Take(stock, items)[p] == stock[p]
  {
    forall i | 0 <= i < |items| && items[i].product in stock
      ensures Take(stock, items)[items[i].product] == stock[items[i].product] - items[i].quantity
    {
      QtyOfLine(items, i);
    }
    forall p | p in stock && (forall i :: 0 <= i < |items| ==> items[i].product != p)
      ensures Take(stock, items)[p] == stock[p]
    {
      QtyUntouched(items, p);
    }
  }

  /** What giving distinct lines back makes of each product. */
  lemma RestockRows(stock: map<int, int>, items: seq<Item>)
    requires Distinct(items)
    ensures Restock(stock, items).Keys == stock.Keys
    ensures forall i :: 0 <= i < |items| && items[i].product in stock ==>
              Restock(stock, items)[items[i].product] == stock[items[i].product] + items[i].quantity
    ensures forall p :: p in stock && (forall i :: 0 <= i < |items| ==> items[i].product != p) ==>
              Restock(stock, items)[p] == stock[p]
  {
    forall i | 0 <= i < |items| && items[i].product in stock
      ensures Restock(stock, items)[items[i].product] == stock[items[i].product] + items[i].quantity
    {
      QtyOfLine(items, i);
    }
    forall p | p in stock && (forall i :: 0 <= i < |items| ==> items[i].product != p)
      ensures Restock(stock, items)[p] == stock[p]
    {
      QtyUntouched(items, p);
    }
  }

  /** The rows a create adds, field by field; every other row is as it was. */
  lemma CreatedRows(db: Db, oid: nat, pid: nat, d: Draft)
    ensures var db' := Created(db, oid, pid, d);
            && db'.orders == db.orders[oid := Order(d.user, OrderPending, d.total)]
            && db'.items == db.items[oid := d.items]
            && db'.payments == db.payments[pid := Payment(oid, d.key, PaymentPending, d.amount, None)]
            && db'.stock == Take(db.stock, d.items)
  {
  }

  /** The rows marking a pending payment paid changes, field by field; every other row is as it was. */
  lemma PaidRows(db: Db, pid: nat, txn: string)
    requires pid in db.payments && db.payments[pid].status == PaymentPending
    ensures var db', pay := Finalised(db, pid, Charged(txn)), db.payments[pid];
            && db'.stock == db.stock && db'.items == db.items
            && db'.payments == db.payments[pid := Payment(pay.order, pay.key, Paid, pay.amount, Some(txn))]
            && db'.orders ==
               if pay.order in db.orders && db.orders[pay.order].status == OrderPending
               then db.orders[pay.order := Order(db.orders[pay.order].user, Confirmed, db.orders[pay.order].total)]
               else db.orders
  {
    var o := db.payments[pid].order;
    assert o in db.orders ==> db.orders[o := db.orders[o]] == db.orders;
  }

  /** The rows a cancellation changes. */
  lemma CancelledRows(db: Db, pid: nat)
    requires pid in db.payments && db.payments[pid].status == PaymentPending
    ensures var db', pay := Finalised(db, pid, Declined), db.payments[pid];
            && db'.stock == Restock(db.stock, if pay.order in db.items then db.items[pay.order] else [])
            && db'.items == db.items
            && db'.payments == db.payments[pid := Payment(pay.order, pay.key, Failed, pay.amount, pay.txn)]
            && db'.orders ==
               if pay.order in db.orders && db.orders[pay.order].status == OrderPending
               then db.orders[pay.order := Order(db.orders[pay.order].user, Cancelled, db.orders[pay.order].total)]
               else db.orders
  {
    var o := db.payments[pid].order;
    assert o in db.orders ==> db.orders[o := db.orders[o]] == db.orders;
    assert Restock(db.stock, []) == db.stock;
  }

  /** Payment pid, its order and its lines still hold what was drafted. */
  predicate Drafted(db: Db, pid: nat, d: Draft) {
    && pid in db.payments
    && var pay := db.payments[pid];
       && pay.order in db.orders && pay.order in db.items
       && pay.key == d.key && pay.amount == d.amount
       && db.orders[pay.order].user == d.user && db.orders[pay.order].total == d.total
       && db.items[pay.order] == d.items
  }

  /** A draft whose payment and total are what its lines cost, as intake makes them. */
  predicate BilledRight(d: Draft) {
    d.amount == d.total && d.total == Bill(d.items)
  }

  lemma CreatedDraft(db: Db, oid: nat, pid: nat, d: Draft)
    ensures Drafted(Created(db, oid, pid, d), pid, d) && Created(db, oid, pid, d).payments[pid].order == oid
  {
    CreatedRows(db, oid, pid, d);
  }

  lemma CreatedKeepsDraft(db: Db, oid: nat, pid: nat, d: Draft, q: nat, e: Draft)
    requires Drafted(db, q, e) && oid !in db.orders && pid !in db.payments
    ensures Drafted(Created(db, oid, pid, d), q, e)
    ensures Created(db, oid, pid, d).payments[q].order == db.payments[q].order
  {
    CreatedRows(db, oid, pid, d);
  }

  lemma FinalisedKeepsDraft(db: Db, pid: nat, o: Outcome, q: nat, e: Draft)
    requires Drafted(db, q, e)
    ensures Drafted(Finalised(db, pid, o), q, e) && Finalised(db, pid, o).payments[q].order == db.payments[q].order
  {
    if IsPending(db, pid) {
      match o
      case Charged(txn) => PaidRows(db, pid, txn);
      case Declined => CancelledRows(db, pid);
    }
  }

  // ---------------------------------------------------------------- what every transaction keeps

  /** An order holds stock while its payment is pending or paid. */
  predicate HoldsStock(pay: Payment) {
    pay.status == PaymentPending || pay.status == Paid
  }

  function HeldBy(db: Db, p: int, pid: nat): int {
    if pid in db.payments && HoldsStock(db.payments[pid]) && db.payments[pid].order in db.items
    then Qty(db.items[db.payments[pid].order], p)
    else 0
  }

  /** Quantity of p on all live orders whose payment id is below n. */
  function Held(db: Db, p: int, n: nat): int {
    if n == 0 then 0 else Held(db, p, n - 1) + HeldBy(db, p, n - 1)
  }

  /** The three status pairs an order and its payment may be in. */
  predicate Coupled(pay: Payment, order: Order) {
    || (pay.status == PaymentPending && order.status == OrderPending && pay.txn == None)
    || (pay.status == Paid && order.status == Confirmed && pay.txn.Some?)
    || (pay.status == Failed && order.status == Cancelled && pay.txn == None)
  }

  predicate OrderIntact(stock: map<int, int>, db: Db, pid: nat)
    requires pid in db.payments
  {
    var pay := db.payments[pid];
    && pay.order in db.orders && pay.order in db.items
    && Coupled(pay, db.orders[pay.order])
    && pay.amount >= 0 && db.orders[pay.order].total >= 0
    && ValidLines(db.items[pay.order])
    && forall i :: 0 <= i < |db.items[pay.order]| ==> db.items[pay.order][i].product in stock
  }

  predicate IdsBelow(db: Db, nextOrder: nat, nextPayment: nat) {
    && (forall o :: o in db.orders ==> o < nextOrder)
    && (forall o :: o in db.items ==> o < nextOrder)
    && (forall pid :: pid in db.payments ==> pid < nextPayment)
  }

  predicate OnePaymentEach(db: Db) {
    && (forall o :: o in db.orders ==> exists pid :: pid in db.payments && db.payments[pid].order == o)
    && (forall a, b :: a in db.payments && b in db.payments && a != b ==>
          db.payments[a].order != db.payments[b].order && db.payments[a].key != db.payments[b].key)
  }

  predicate Conserved(supply: map<int, int>, db: Db, nextPayment: nat) {
    && db.stock.Keys == supply.Keys
    && forall p :: p in supply ==> db.stock[p] >= 0 && db.stock[p] + Held(db, p, nextPayment) == supply[p]
  }

  predicate DbInv(supply: map<int, int>, db: Db, nextOrder: nat, nextPayment: nat) {
    && IdsBelow(db, nextOrder, nextPayment)
    && (forall pid :: pid in db.payments ==> OrderIntact(db.stock, db, pid))
    && OnePaymentEach(db)
    && Conserved(supply, db, nextPayment)
  }

  /** Two stores that agree on payments below n hold the same there. */
  lemma {:induction false} HeldSame(a: Db, b: Db, p: int, n: nat)
    requires forall pid: nat :: pid < n ==> HeldBy(a, p, pid) == HeldBy(b, p, pid)
    ensures Held(a, p, n) == Held(b, p, n)
  {
    if n > 0 {
      HeldSame(a, b, p, n - 1);
    }
  }

  /** Changing one payment changes what is held by exactly that payment's share. */
  lemma {:induction false} HeldChanged(a: Db, b: Db, p: int, n: nat, at: nat)
    requires at < n
    requires forall pid: nat :: pid < n && pid != at ==> HeldBy(a, p, pid) == HeldBy(b, p, pid)
    ensures Held(b, p, n) - Held(a, p, n) == HeldBy(b, p, at) - HeldBy(a, p, at)
  {
    if at == n - 1 {
      HeldSame(a, b, p, n - 1);
    } else {
      HeldChanged(a, b, p, n - 1, at);
    }
  }

  /** Sequences leave gaps behind rolled-back inserts: nothing is held above the last used id. */
  lemma {:induction false} HeldAbove(db: Db, p: int, m: nat, n: nat)
    requires m <= n
    requires forall pid :: pid in db.payments ==> pid < m
    ensures Held(db, p, n) == Held(db, p, m)
  {
    if m < n {
      HeldAbove(db, p, m, n - 1);
    }
  }

  /** Drawing ids that are never used keeps everything. */
  lemma DbInvGaps(supply: map<int, int>, db: Db, nextOrder: nat, nextPayment: nat, nextOrder': nat, nextPayment': nat)
    requires DbInv(supply, db, nextOrder, nextPayment)
    requires nextOrder <= nextOrder' && nextPayment <= nextPayment'
    ensures DbInv(supply, db, nextOrder', nextPayment')
  {
    forall p | p in supply ensures Held(db, p, nextPayment') == Held(db, p, nextPayment) {
      HeldAbove(db, p, nextPayment, nextPayment');
    }
  }

  lemma CreatedConservesOne(supply: map<int, int>, db: Db, oid: nat, pid: nat, d: Draft, nextPayment: nat, p: int)
    requires Conserved(supply, db, nextPayment)
    requires ValidLines(d.items) && Covers(db.stock, d.items)
    requires forall q :: q in db.payments ==> db.payments[q].order != oid
    requires pid !in db.payments && pid < nextPayment && p in supply
    ensures var db' := Created(db, oid, pid, d);
            db'.stock[p] >= 0 && db'.stock[p] + Held(db', p, nextPayment) == supply[p]
  {
    var db' := Created(db, oid, pid, d);
    HeldChanged(db, db', p, nextPayment, pid);
    if Touches(d.items, p) {
      var i :| 0 <= i < |d.items| && d.items[i].product == p;
      QtyOfLine(d.items, i);
      assert Served(db.stock, d.items[i]);
    } else {
      QtyUntouched(d.items, p);
    }
  }

  lemma CreatedIntact(users: set<int>, db: Db, oid: nat, pid: nat, d: Draft, q: nat)
    requires Accepts(users, db, d)
    requires oid !in db.orders && oid !in db.items && pid !in db.payments
    requires q in db.payments ==> OrderIntact(db.stock, db, q)
    requires q == pid || q in db.payments
    ensures OrderIntact(Created(db, oid, pid, d).stock, Created(db, oid, pid, d), q)
  {
    if q == pid {
      forall i | 0 <= i < |d.items| ensures d.items[i].product in db.stock {
        assert Served(db.stock, d.items[i]);
      }
    }
  }

  lemma CreatedOneEach(db: Db, oid: nat, pid: nat, d: Draft)
    requires OnePaymentEach(db) && KeyFree(db, d.key)
    requires pid !in db.payments && forall q :: q in db.payments ==> db.payments[q].order != oid
    ensures OnePaymentEach(Created(db, oid, pid, d))
  {
    var db' := Created(db, oid, pid, d);
    assert db'.payments[pid].order == oid;
    forall o | o in db.orders ensures exists q :: q in db'.payments && db'.payments[q].order == o {
      var q :| q in db.payments && db.payments[q].order == o;
      assert db'.payments[q].order == o;
    }
  }

  lemma CreatedConserves(supply: map<int, int>, db: Db, oid: nat, pid: nat, d: Draft, nextPayment: nat)
    requires Conserved(supply, db, nextPayment)
    requires ValidLines(d.items) && Covers(db.stock, d.items)
    requires forall q :: q in db.payments ==> db.payments[q].order != oid
    requires pid !in db.payments && pid < nextPayment
    ensures Conserved(supply, Created(db, oid, pid, d), nextPayment)
  {
    var db' := Created(db, oid, pid, d);
    forall p | p in supply
      ensures db'.stock[p] >= 0 && db'.stock[p] + Held(db', p, nextPayment) == supply[p]
    {
      CreatedConservesOne(supply, db, oid, pid, d, nextPayment, p);
    }
  }

  /** An id not among the orders is not referred to by any payment. */
  lemma UnusedOrder(db: Db, oid: nat)
    requires forall q :: q in db.payments ==> OrderIntact(db.stock, db, q)
    requires oid !in db.orders
    ensures forall q :: q in db.payments ==> db.payments[q].order != oid
  {
    forall q | q in db.payments ensures db.payments[q].order != oid {
      assert OrderIntact(db.stock, db, q);
    }
  }

  lemma CreatedAllIntact(users: set<int>, db: Db, oid: nat, pid: nat, d: Draft)
    requires Accepts(users, db, d)
    requires oid !in db.orders && oid !in db.items && pid !in db.payments
    requires forall q :: q in db.payments ==> OrderIntact(db.stock, db, q)
    ensures var db' := Created(db, oid, pid, d); forall q :: q in db'.payments ==> OrderIntact(db'.stock, db', q)
  {
    var db' := Created(db, oid, pid, d);
    forall q | q in db'.payments ensures OrderIntact(db'.stock, db', q) {
      CreatedIntact(users, db, oid, pid, d, q);
    }
  }

  lemma CreatedIds(db: Db, oid: nat, pid: nat, d: Draft, nextOrder: nat, nextPayment: nat)
    requires IdsBelow(db, nextOrder, nextPayment) && oid < nextOrder && pid < nextPayment
    ensures IdsBelow(Created(db, oid, pid, d), nextOrder, nextPayment)
  {
  }

  /** An accepted create moves stock onto the new order and keeps every store law. */
  lemma CreatedKeeps(supply: map<int, int>, users: set<int>, db: Db, oid: nat, pid: nat, d: Draft, nextOrder: nat,
                     nextPayment: nat)
    requires DbInv(supply, db, nextOrder, nextPayment)
    requires Accepts(users, db, d)
    requires oid !in db.orders && oid !in db.items && oid < nextOrder
    requires pid !in db.payments && pid < nextPayment
    ensures DbInv(supply, Created(db, oid, pid, d), nextOrder, nextPayment)
  {
    UnusedOrder(db, oid);
    CreatedConserves(supply, db, oid, pid, d, nextPayment);
    CreatedAllIntact(users, db, oid, pid, d);
    CreatedOneEach(db, oid, pid, d);
    CreatedIds(db, oid, pid, d, nextOrder, nextPayment);
  }

  lemma FinalisedConservesOne(supply: map<int, int>, db: Db, pid: nat, o: Outcome, nextPayment: nat, p: int)
    requires Conserved(supply, db, nextPayment)
    requires IsPending(db, pid) && OrderIntact(db.stock, db, pid) && pid < nextPayment && p in supply
    ensures var db' := Finalised(db, pid, o);
            db'.stock[p] >= 0 && db'.stock[p] + Held(db', p, nextPayment) == supply[p]
  {
    HeldChanged(db, Finalised(db, pid, o), p, nextPayment, pid);
    QtyNonNegative(db.items[db.payments[pid].order], p);
  }

  lemma FinalisedIntact(db: Db, pid: nat, o: Outcome, q: nat)
    requires pid in db.payments && q in db.payments
    requires OrderIntact(db.stock, db, q)
    requires q != pid ==> db.payments[q].order != db.payments[pid].order
    ensures OrderIntact(Finalised(db, pid, o).stock, Finalised(db, pid, o), q)
  {
    assert Finalised(db, pid, o).stock.Keys == db.stock.Keys;
  }

  lemma FinalisedOneEach(db: Db, pid: nat, o: Outcome)
    requires OnePaymentEach(db)
    ensures OnePaymentEach(Finalised(db, pid, o))
  {
    var db' := Finalised(db, pid, o);
    forall x | x in db'.orders && x in db.orders ensures exists q :: q in db'.payments && db'.payments[q].order == x {
      var q :| q in db.payments && db.payments[q].order == x;
      assert db'.payments[q].order == x;
    }
  }

  lemma FinalisedConserves(supply: map<int, int>, db: Db, pid: nat, o: Outcome, nextPayment: nat)
    requires Conserved(supply, db, nextPayment)
    requires IsPending(db, pid) && OrderIntact(db.stock, db, pid) && pid < nextPayment
    ensures Conserved(supply, Finalised(db, pid, o), nextPayment)
  {
    var db' := Finalised(db, pid, o);
    forall p | p in supply
      ensures db'.stock[p] >= 0 && db'.stock[p] + Held(db', p, nextPayment) == supply[p]
    {
      FinalisedConservesOne(supply, db, pid, o, nextPayment, p);
    }
  }

  lemma FinalisedAllIntact(db: Db, pid: nat, o: Outcome)
    requires OnePaymentEach(db) && forall q :: q in db.payments ==> OrderIntact(db.stock, db, q)
    ensures var db' := Finalised(db, pid, o); forall q :: q in db'.payments ==> OrderIntact(db'.stock, db', q)
  {
    var db' := Finalised(db, pid, o);
    forall q | q in db'.payments && pid in db.payments ensures OrderIntact(db'.stock, db', q) {
      FinalisedIntact(db, pid, o, q);
    }
  }

  /** Either finalise outcome keeps every store law; a decline gives back exactly what was taken. */
  lemma FinalisedKeeps(supply: map<int, int>, db: Db, pid: nat, o: Outcome, nextOrder: nat, nextPayment: nat)
    requires DbInv(supply, db, nextOrder, nextPayment)
    ensures DbInv(supply, Finalised(db, pid, o), nextOrder, nextPayment)
  {
    if IsPending(db, pid) {
      assert OrderIntact(db.stock, db, pid);
      FinalisedConserves(supply, db, pid, o, nextPayment);
      FinalisedAllIntact(db, pid, o);
      FinalisedOneEach(db, pid, o);
    }
  }

  /** Nothing on sale is ever above its supply. */
  lemma {:induction false} HeldNonNegative(db: Db, p: int, n: nat)
    requires forall pid :: pid in db.payments ==> OrderIntact(db.stock, db, pid)
    ensures Held(db, p, n) >= 0
  {
    if n > 0 {
      HeldNonNegative(db, p, n - 1);
      if n - 1 in db.payments {
        assert OrderIntact(db.stock, db, n - 1);
        QtyNonNegative(db.items[db.payments[n - 1].order], p);
      }
    }
  }
}
