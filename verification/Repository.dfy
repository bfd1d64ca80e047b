/**
 The order repository as it is written: each transaction runs its statements in turn on the
 tables, and any error rolls all of them back. A statement that the database fails is named
 by its position; None means the database never errors.
 */
module Repository {
  import opened Collections
  import opened Orders

  datatype CreateResult = Inserted(oid: nat, pid: nat) | InsufficientStock(product: int) | UserNotFound | DatabaseError

  predicate ShortAt(stock: map<int, int>, items: seq<Item>, i: int) {
    0 <= i < |items| && !Served(stock, items[i])
  }

  /** The first line, in cart order, whose stock does not suffice is for this product. */
  ghost predicate FirstShort(stock: map<int, int>, items: seq<Item>, product: int) {
    exists i :: ShortAt(stock, items, i) && items[i].product == product &&
                forall j :: 0 <= j < i ==> Served(stock, items[j])
  }

  /** The smallest product whose stock does not suffice. */
  ghost predicate SmallestShort(stock: map<int, int>, items: seq<Item>, product: int) {
    && (exists i :: ShortAt(stock, items, i) && items[i].product == product)
    && (forall j :: ShortAt(stock, items, j) ==> product <= items[j].product)
  }

  lemma FirstIsSmallest(stock: map<int, int>, items: seq<Item>, product: int)
    requires Ascending(items) && FirstShort(stock, items, product)
    ensures SmallestShort(stock, items, product)
  {
    var i :| ShortAt(stock, items, i) && items[i].product == product &&
             forall j :: 0 <= j < i ==> Served(stock, items[j]);
    forall j | ShortAt(stock, items, j) ensures product <= items[j].product {
      assert i <= j;
    }
  }

  class OrderRepository {
    const users: set<int>
    var stock: map<int, int>
    var orders: map<nat, Order>
    var items: map<nat, seq<Item>>
    var payments: map<nat, Payment>
    var nextOrder: nat
    var nextPayment: nat

    function Rows(): Db
      reads this
    {
      Db(stock, orders, items, payments)
    }

    ghost predicate Valid()
      reads this
    {
      IdsBelow(Rows(), nextOrder, nextPayment)
    }

    constructor (users: set<int>, stock: map<int, int>)
      ensures Valid() && this.users == users && Rows() == Db(stock, map[], map[], map[])
    {
      this.users := users;
      this.stock, orders, items, payments := stock, map[], map[], map[];
      nextOrder, nextPayment := 0, 0;
    }

    method Rollback(saved: Db)
      modifies `stock, `orders, `items, `payments
      ensures Rows() == saved
    {
      stock, orders, items, payments := saved.stock, saved.orders, saved.items, saved.payments;
    }

    /** The guarded decrement, line by line. Stops at the first line that affects no row. */
    method Reserve(lines: seq<Item>, faultAt: Option<nat>) returns (r: Option<CreateResult>)
      modifies `stock
      ensures faultAt == None || faultAt.value >= |lines| ==> r != Some(DatabaseError)
      ensures r.None? ==> stock == Take(old(stock), lines)
      ensures r.None? && Distinct(lines) ==> Covers(old(stock), lines)
      ensures r.Some? ==> r.value.InsufficientStock? || r.value.DatabaseError?
      ensures r.Some? && r.value.InsufficientStock? && Distinct(lines) ==>
                FirstShort(old(stock), lines, r.value.product)
    {
      ghost var before := stock;
      var i := 0;
      assert Take(before, lines[..0]) == before;
      while i < |lines|
        invariant i <= |lines|
        invariant stock == Take(before, lines[..i])
        invariant Distinct(lines) ==> forall j :: 0 <= j < i ==> Served(before, lines[j])
      {
        var line := lines[i];
        if faultAt == Some(i) {
          return Some(DatabaseError);
        }
        if Distinct(lines) {
          assert !Touches(lines[..i], line.product);
          QtyUntouched(lines[..i], line.product);
        }
        if !(line.product in stock && stock[line.product] >= line.quantity) {
          assert Distinct(lines) ==> ShortAt(before, lines, i);
          return Some(InsufficientStock(line.product));
        }
        TakeSnoc(before, lines, i);
        stock := stock[line.product := stock[line.product] - line.quantity];
        i := i + 1;
      }
      assert lines[..i] == lines;
      return None;
    }

    /** The three inserts. Ids are drawn whether or not their insert succeeds. */
    method InsertRows(d: Draft, faultAt: Option<nat>) returns (r: CreateResult)
      modifies `orders, `items, `payments, `nextOrder, `nextPayment
      ensures !r.InsufficientStock?
      ensures nextOrder == old(nextOrder) + 1 && old(nextPayment) <= nextPayment <= old(nextPayment) + 1
      ensures r.Inserted? ==>
                && r.oid == old(nextOrder) && r.pid == old(nextPayment) < nextPayment
                && ValidLines(d.items) && d.user in users && d.total >= 0 && d.amount >= 0
                && KeyFree(old(Rows()), d.key)
                && orders == old(orders)[r.oid := Order(d.user, OrderPending, d.total)]
                && items == old(items)[r.oid := d.items]
                && payments == old(payments)[r.pid := Payment(r.oid, d.key, PaymentPending, d.amount, None)]
      ensures r.UserNotFound? ==> d.user !in users
      ensures faultAt == None && d.total >= 0 && d.user !in users ==> r.UserNotFound?
      ensures faultAt == None && ValidLines(d.items) && d.user in users && d.total >= 0 && d.amount >= 0
                && KeyFree(old(Rows()), d.key) ==>
                r.Inserted?
    {
      var n := |d.items|;
      // 2. Insert the order.
      var oid := nextOrder;
      nextOrder := nextOrder + 1;
      if d.total < 0 || faultAt == Some(n) {
        return DatabaseError;
      }
      if d.user !in users {
        return UserNotFound;
      }
      orders := orders[oid := NewOrder(d)];
      // 3. Insert the lines.
      if !ValidLines(d.items) || faultAt == Some(n + 1) {
        return DatabaseError;
      }
      items := items[oid := d.items];
      // 4. Insert the payment; its key is unique.
      var pid := nextPayment;
      nextPayment := nextPayment + 1;
      if d.amount < 0 || !KeyFree(Rows(), d.key) || faultAt == Some(n + 2) {
        return DatabaseError;
      }
      payments := payments[pid := NewPayment(oid, d)];
      // The commit itself.
      if faultAt == Some(n + 3) {
        return DatabaseError;
      }
      return Inserted(oid, pid);
    }

    /** Reserve, insert, and roll back on any error. */
    method Transact(d: Draft, faultAt: Option<nat>) returns (r: CreateResult)
      requires Valid()
      modifies this
      ensures Valid()
      ensures !r.Inserted? ==> Rows() == old(Rows())
      ensures r.Inserted? ==>
                && r.oid !in old(orders) && r.pid !in old(payments)
                && Accepts(users, old(Rows()), d)
                && Rows() == Created(old(Rows()), r.oid, r.pid, d)
      ensures faultAt == None && Accepts(users, old(Rows()), d) ==> r.Inserted?
      ensures r.InsufficientStock? && Ascending(d.items) ==> SmallestShort(old(stock), d.items, r.product)
      ensures faultAt == None && Distinct(d.items) && !Covers(old(stock), d.items) ==> r.InsufficientStock?
      ensures r.UserNotFound? ==> d.user !in users
      ensures faultAt == None && Distinct(d.items) && Covers(old(stock), d.items) && d.total >= 0 &&
              d.user !in users ==>
                r.UserNotFound?
    {
      var saved := Rows();
      // 1. Reserve the stock.
      var failed := Reserve(d.items, faultAt);
      if failed.Some? {
        r := failed.value;
        if r.InsufficientStock? && Ascending(d.items) {
          FirstIsSmallest(saved.stock, d.items, r.product);
        }
      } else {
        r := InsertRows(d, faultAt);
      }
      if !r.Inserted? {
        Rollback(saved);
      }
    }

    /**
     Commits exactly when every row check passes and every line's stock suffices and no statement
     errors, and then leaves exactly the created rows; otherwise every row is as before. For sorted
     lines the reported product is the smallest one whose stock does not suffice.
     */
    method CreateOrder(d: Draft, faultAt: Option<nat>) returns (r: CreateResult)
      requires Valid()
      modifies this
      ensures Valid()
      ensures !r.Inserted? ==> Rows() == old(Rows())
      ensures r.Inserted? ==>
                && r.oid !in old(orders) && r.pid !in old(payments)
                && Accepts(users, old(Rows()), d)
                && Rows() == Created(old(Rows()), r.oid, r.pid, d)
      ensures faultAt == None && Accepts(users, old(Rows()), d) ==> r.Inserted?
      ensures faultAt == None ==>
                (r.Inserted? <==>
                   && d.items != []
                   && (forall i, j :: 0 <= i < j < |d.items| ==> d.items[i].product != d.items[j].product)
                   && (forall i :: 0 <= i < |d.items| ==> d.items[i].quantity > 0 && d.items[i].price >= 0)
                   && (forall i :: 0 <= i < |d.items| ==>
                         d.items[i].product in old(stock) && d.items[i].quantity <= old(stock)[d.items[i].product])
                   && d.user in users && d.total >= 0 && d.amount >= 0
                   && (forall pid :: pid in old(payments) ==> old(payments)[pid].key != d.key))
      ensures r.Inserted? ==>
                && orders == old(orders)[r.oid := Order(d.user, OrderPending, d.total)]
                && items == old(items)[r.oid := d.items]
                && payments == old(payments)[r.pid := Payment(r.oid, d.key, PaymentPending, d.amount, None)]
      ensures r.Inserted? ==>
                && stock.Keys == old(stock).Keys
                && (forall i :: 0 <= i < |d.items| ==>
                      && d.items[i].product in stock
                      && stock[d.items[i].product] == old(stock)[d.items[i].product] - d.items[i].quantity)
                && (forall p :: p in stock && (forall i :: 0 <= i < |d.items| ==> d.items[i].product != p) ==>
                      stock[p] == old(stock)[p])
      ensures r.InsufficientStock? && Ascending(d.items) ==> SmallestShort(old(stock), d.items, r.product)
      ensures faultAt == None && Distinct(d.items) && !Covers(old(stock), d.items) ==> r.InsufficientStock?
      ensures r.UserNotFound? ==> d.user !in users
      ensures faultAt == None && Distinct(d.items) && Covers(old(stock), d.items) && d.total >= 0 &&
              d.user !in users ==>
                r.UserNotFound?
    {
      ghost var saved := Rows();
      AcceptsMeans(users, saved, d);
      r := Transact(d, faultAt);
      if r.Inserted? {
        CreatedRows(saved, r.oid, r.pid, d);
        TakeRows(saved.stock, d.items);
      }
    }

    /** The order's pending payment with the lowest id, if there is one. */
    method GetPendingByOrderID(oid: nat, fault: bool) returns (found: Option<nat>, err: bool)
      ensures err == fault
      ensures err ==> found == None
      ensures found.Some? ==> IsPending(Rows(), found.value) && payments[found.value].order == oid
      ensures found.Some? ==>
                forall pid :: IsPending(Rows(), pid) && payments[pid].order == oid ==> found.value <= pid
      ensures !err && found.None? ==>
                forall pid :: pid in payments && payments[pid].order == oid ==> !IsPending(Rows(), pid)
    {
      if fault {
        return None, true;
      }
      var rows := set pid | pid in payments && payments[pid].order == oid && payments[pid].status == PaymentPending;
      assert forall pid :: pid in rows <==> IsPending(Rows(), pid) && payments[pid].order == oid;
      if rows == {} {
        return None, false;
      }
      ghost var least := LeastOf(rows);
      var first :| first in rows && forall pid :: pid in rows ==> first <= pid;
      return Some(first), false;
    }

    /**
     The flag with no error tells whether this call made the transition, which happens
     exactly when the payment was still pending; an error leaves every row as before.
     */
    method MarkPaidAndConfirm(pid: nat, oid: nat, txn: string, faultAt: Option<nat>)
        returns (transitioned: bool, err: bool)
      requires pid in payments ==> payments[pid].order == oid
      modifies `orders, `payments
      ensures err ==> Rows() == old(Rows())
      ensures !err ==> (transitioned <==> pid in old(payments) && old(payments)[pid].status == PaymentPending)
      ensures !err ==> Rows() == Finalised(old(Rows()), pid, Charged(txn))
      ensures !err && !transitioned ==> Rows() == old(Rows())
      ensures !err && transitioned ==>
                && payments == old(payments)[pid := Payment(oid, old(payments)[pid].key, Paid,
                                                            old(payments)[pid].amount, Some(txn))]
                && orders == if oid in old(orders) && old(orders)[oid].status == OrderPending
                             then old(orders)[oid := old(orders)[oid].(status := Confirmed)] else old(orders)
      ensures faultAt == None ==> !err
    {
      transitioned := false;
      var saved := Rows();
      if faultAt == Some(0) {
        return transitioned, true;
      }
      if !(pid in payments && payments[pid].status == PaymentPending) {
        return transitioned, faultAt == Some(2);
      }
      payments := payments[pid := payments[pid].(status := Paid, txn := Some(txn))];
      transitioned := true;
      if faultAt == Some(1) || faultAt == Some(2) {
        orders, payments := saved.orders, saved.payments;
        return transitioned, true;
      }
      if oid in orders && orders[oid].status == OrderPending {
        orders := orders[oid := orders[oid].(status := Confirmed)];
      }
      err := false;
    }

    /** The restock loop. A line whose product has no inventory row updates nothing. */
    method PutBack(scan: seq<Item>, faultAt: Option<nat>) returns (err: bool)
      modifies `stock
      ensures !err ==> stock == Restock(old(stock), scan)
      ensures faultAt == None ==> !err
    {
      ghost var before := stock;
      var i := 0;
      assert Restock(before, scan[..0]) == before;
      while i < |scan|
        invariant i <= |scan|
        invariant stock == Restock(before, scan[..i])
      {
        if faultAt == Some(i + 2) {
          return true;
        }
        RestockSnoc(before, scan, i);
        if scan[i].product in stock {
          stock := stock[scan[i].product := stock[scan[i].product] + scan[i].quantity];
        }
        i := i + 1;
      }
      assert scan[..i] == scan;
      return false;
    }

    /**
     The same for the failing outcome; the restock loop gives back the order's lines
     whatever order the query returns them in.
     */
    method FailCancelAndRestock(pid: nat, oid: nat, scan: seq<Item>, faultAt: Option<nat>)
        returns (transitioned: bool, err: bool)
      requires pid in payments ==> payments[pid].order == oid
      requires multiset(scan) == multiset(if oid in items then items[oid] else [])
      modifies `stock, `orders, `payments
      ensures err ==> Rows() == old(Rows())
      ensures !err ==> (transitioned <==> pid in old(payments) && old(payments)[pid].status == PaymentPending)
      ensures !err ==> Rows() == Finalised(old(Rows()), pid, Declined)
      ensures !err && !transitioned ==> Rows() == old(Rows())
      ensures !err && transitioned ==>
                && payments == old(payments)[pid := Payment(oid, old(payments)[pid].key, Failed,
                                                            old(payments)[pid].amount, old(payments)[pid].txn)]
                && orders == if oid in old(orders) && old(orders)[oid].status == OrderPending
                             then old(orders)[oid := old(orders)[oid].(status := Cancelled)] else old(orders)
      ensures !err && transitioned && oid in items && Distinct(items[oid]) ==>
                && stock.Keys == old(stock).Keys
                && (forall i :: 0 <= i < |items[oid]| && items[oid][i].product in stock ==>
                      stock[items[oid][i].product] == old(stock)[items[oid][i].product] + items[oid][i].quantity)
                && (forall p :: p in stock && (forall i :: 0 <= i < |items[oid]| ==> items[oid][i].product != p) ==>
                      stock[p] == old(stock)[p])
      ensures faultAt == None ==> !err
    {
      transitioned := false;
      var saved := Rows();
      if faultAt == Some(0) {
        return transitioned, true;
      }
      if !(pid in payments && payments[pid].status == PaymentPending) {
        return transitioned, faultAt == Some(1);
      }
      payments := payments[pid := payments[pid].(status := Failed)];
      transitioned := true;
      if faultAt == Some(1) {
        payments := saved.payments;
        return transitioned, true;
      }
      if oid in orders && orders[oid].status == OrderPending {
        orders := orders[oid := orders[oid].(status := Cancelled)];
      }
      err := PutBack(scan, faultAt);
      DeclinedRows(saved, pid, scan);
      if err || faultAt == Some(|scan| + 2) {
        stock, orders, payments := saved.stock, saved.orders, saved.payments;
        return transitioned, true;
      }
      CancelledRows(saved, pid);
      if oid in items && Distinct(items[oid]) {
        RestockRows(saved.stock, items[oid]);
      }
    }
  }

  /** Marking both rows and restocking the scanned lines is the declined finalise. */
  lemma DeclinedRows(db: Db, pid: nat, scan: seq<Item>)
    requires IsPending(db, pid)
    requires var oid := db.payments[pid].order;
             multiset(scan) == multiset(if oid in db.items then db.items[oid] else [])
    ensures var pay := db.payments[pid];
            Finalised(db, pid, Declined) ==
            Db(Restock(db.stock, scan),
               if pay.order in db.orders && db.orders[pay.order].status == OrderPending
               then db.orders[pay.order := db.orders[pay.order].(status := Cancelled)] else db.orders,
               db.items, db.payments[pid := pay.(status := Failed)])
  {
    var oid := db.payments[pid].order;
    RestockPermuted(db.stock, scan, if oid in db.items then db.items[oid] else []);
    assert Restock(db.stock, []) == db.stock;
    assert oid in db.orders ==> db.orders[oid := db.orders[oid]] == db.orders;
  }

  lemma TakeSnoc(stock: map<int, int>, lines: seq<Item>, i: nat)
    requires i < |lines| && lines[i].product in stock
    ensures var before := Take(stock, lines[..i]);
            Take(stock, lines[..i + 1]) == before[lines[i].product := before[lines[i].product] - lines[i].quantity]
  {
    assert lines[..i + 1] == lines[..i] + [lines[i]];
    forall p ensures Qty(lines[..i + 1], p) == Qty(lines[..i], p) + OfProduct(p)(lines[i]) {
      SumSnoc(lines[..i], lines[i], OfProduct(p));
    }
  }

  lemma RestockSnoc(stock: map<int, int>, lines: seq<Item>, i: nat)
    requires i < |lines|
    ensures var before := Restock(stock, lines[..i]);
            Restock(stock, lines[..i + 1]) ==
            if lines[i].product in before then before[lines[i].product := before[lines[i].product] + lines[i].quantity]
                else before
  {
    assert lines[..i + 1] == lines[..i] + [lines[i]];
    forall p ensures Qty(lines[..i + 1], p) == Qty(lines[..i], p) + OfProduct(p)(lines[i]) {
      SumSnoc(lines[..i], lines[i], OfProduct(p));
    }
  }

  lemma RestockPermuted(stock: map<int, int>, a: seq<Item>, b: seq<Item>)
    requires multiset(a) == multiset(b)
    ensures Restock(stock, a) == Restock(stock, b)
  {
    forall p ensures Qty(a, p) == Qty(b, p) {
      SumPermutation(a, b, OfProduct(p));
    }
  }
}
