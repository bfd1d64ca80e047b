/**
 Any number of workers driving orders to a terminal state. A worker loads the pending
 payment, makes up to MaxRetries charge attempts, finalises and notifies; it may crash
 between any two of these. The sweeper may put two workers on one order. The gateway
 charges a key at most once and replays the result afterwards.
 */
module Fulfillment {
  import opened Collections
  import opened Orders

  /**
   overlap: two workers may be on one order at a time. timeouts: a charge attempt may run
   out of time before the gateway looks the key up.
   */
  datatype Config = Config(users: set<int>, maxRetries: int, overlap: bool, timeouts: bool)

  datatype Pc =
    | Loading(order: nat)
    | Charging(pid: nat, order: nat, key: string, amount: int, attempt: nat)
    | Persisting(pid: nat, order: nat, outcome: Outcome)
    | Notifying(pid: nat, order: nat, paid: bool)
    | Done(order: nat, clean: bool)  // clean: returned without a store error

  /** One charge the gateway really made. */
  datatype Receipt = Receipt(key: string, amount: int, txn: string)

  datatype Note = Note(order: nat, paid: bool)

  datatype World = World(
    db: Db, nextOrder: nat, nextPayment: nat,
    charged: map<string, string>, receipts: seq<Receipt>,
    workers: map<nat, Pc>,
    wins: seq<nat>,      // payments whose finalise call returned true with no error
    notes: seq<Note>,    // notifications recorded
    dropped: set<nat>,   // orders whose notification was lost to a crash or a store error
    drafts: map<nat, Draft>)  // what each payment's order was created from

  datatype Reply = TimedOut | Transient | Accepted(txn: string)

  datatype Action =
    | Create(draft: Draft)
    | Spawn(w: nat, order: nat)
    | Load(w: nat, found: Option<nat>)
    | LoadError(w: nat)
    | Attempt(w: nat, reply: Reply)
    | Persist(w: nat)
    | PersistError(w: nat)
    | Notify(w: nat, recorded: bool)
    | Crash(w: nat)

  // ---------------------------------------------------------------- steps

  predicate NoPending(db: Db, order: nat) {
    forall pid :: pid in db.payments && db.payments[pid].order == order ==> !IsPending(db, pid)
  }

  predicate Busy(s: World, order: nat) {
    exists w :: w in s.workers && !s.workers[w].Done? && s.workers[w].order == order
  }

  predicate Enabled(c: Config, s: World, a: Action) {
    match a
    case Create(_) => true
    case Spawn(w, order) => w !in s.workers && order in s.db.orders && (c.overlap || !Busy(s, order))
    case Load(w, found) =>
      && w in s.workers && s.workers[w].Loading?
      && (match found
          case Some(pid) => IsPending(s.db, pid) && s.db.payments[pid].order == s.workers[w].order
          case None => NoPending(s.db, s.workers[w].order))
    case LoadError(w) => w in s.workers && s.workers[w].Loading?
    case Attempt(w, reply) =>
      && w in s.workers && s.workers[w].Charging?
      && (match reply
          case TimedOut => c.timeouts
          case Transient => s.workers[w].key !in s.charged
          case Accepted(txn) => s.workers[w].key in s.charged ==> txn == s.charged[s.workers[w].key])
    case Persist(w) => w in s.workers && s.workers[w].Persisting?
    case PersistError(w) => w in s.workers && s.workers[w].Persisting?
    case Notify(w, _) => w in s.workers && s.workers[w].Notifying?
    case Crash(w) => w in s.workers && !s.workers[w].Done?
  }

  function Goto(s: World, w: nat, pc: Pc): World {
    s.(workers := s.workers[w := pc])
  }

  /** With no retries allowed the loop body never runs and the error stays nil: charged, with no transaction id. */
  function AfterLoad(c: Config, pid: nat, pay: Payment): Pc {
    if c.maxRetries >= 1 then Charging(pid, pay.order, pay.key, pay.amount, 1)
    else Persisting(pid, pay.order, Charged(""))
  }

  function AfterFailedAttempt(c: Config, pc: Pc): Pc
    requires pc.Charging?
  {
    if pc.attempt < c.maxRetries then pc.(attempt := pc.attempt + 1)
    else Persisting(pc.pid, pc.order, Declined)
  }

  function Apply(c: Config, s: World, a: Action): World
    requires Enabled(c, s, a)
  {
    match a
    case Create(d) =>
      if Accepts(c.users, s.db, d) then
        s.(db := Created(s.db, s.nextOrder, s.nextPayment, d), drafts := s.drafts[s.nextPayment := d],
           nextOrder := s.nextOrder + 1, nextPayment := s.nextPayment + 1)
      else s
    case Spawn(w, order) => Goto(s, w, Loading(order))
    case Load(w, found) =>
      (match found
       case Some(pid) => Goto(s, w, AfterLoad(c, pid, s.db.payments[pid]))
       case None => Goto(s, w, Done(s.workers[w].order, true)))
    case LoadError(w) => Goto(s, w, Done(s.workers[w].order, false))
    case Attempt(w, reply) =>
      var pc := s.workers[w];
      (match reply
       case Accepted(txn) =>
         var next := Goto(s, w, Persisting(pc.pid, pc.order, Charged(txn)));
         if pc.key in s.charged then next
         else next.(charged := s.charged[pc.key := txn], receipts := s.receipts + [Receipt(pc.key, pc.amount, txn)])
       case _ => Goto(s, w, AfterFailedAttempt(c, pc)))
    case Persist(w) =>
      var pc := s.workers[w];
      if IsPending(s.db, pc.pid) then
        Goto(s, w, Notifying(pc.pid, pc.order, pc.outcome.Charged?))
          .(db := Finalised(s.db, pc.pid, pc.outcome), wins := s.wins + [pc.pid])
      else
        Goto(s, w, Done(pc.order, true))
    case PersistError(w) => Goto(s, w, Done(s.workers[w].order, false))
    case Notify(w, recorded) =>
      var pc := s.workers[w];
      if recorded then Goto(s, w, Done(pc.order, true)).(notes := s.notes + [Note(pc.order, pc.paid)])
      else Goto(s, w, Done(pc.order, true)).(dropped := s.dropped + {pc.order})
    case Crash(w) =>
      var pc := s.workers[w];
      s.(workers := s.workers - {w}, dropped := if pc.Notifying? then s.dropped + {pc.order} else s.dropped)
  }

  function Exec(c: Config, s: World, acts: seq<Action>): Option<World>
    decreases |acts|
  {
    if acts == [] then Some(s)
    else if Enabled(c, s, acts[0]) then Exec(c, Apply(c, s, acts[0]), acts[1..])
    else None
  }

  function Init(supply: map<int, int>): World {
    World(Db(supply, map[], map[], map[]), 0, 0, map[], [], map[], [], [], {}, map[])
  }

  /** A worker may crash at any point before it is done, and takes nothing with it but an untold notification. */
  lemma CrashAnywhere(c: Config, s: World, w: nat)
    requires w in s.workers && !s.workers[w].Done?
    ensures Enabled(c, s, Crash(w))
    ensures var s' := Apply(c, s, Crash(w));
            && w !in s'.workers && (forall v :: v in s.workers && v != w ==>
                                    v in s'.workers && s'.workers[v] == s.workers[v])
            && s'.db == s.db && s'.charged == s.charged && s'.receipts == s.receipts && s'.notes == s.notes
            && s'.dropped == s.dropped + (if s.workers[w].Notifying? then {s.workers[w].order} else {})
  {
  }

  // ---------------------------------------------------------------- invariants

  predicate Grounded(supply: map<int, int>, s: World) {
    DbInv(supply, s.db, s.nextOrder, s.nextPayment)
  }

  predicate OwnedBy(db: Db, pid: nat, order: nat) {
    pid in db.payments && db.payments[pid].order == order && order in db.orders
  }

  /** What each program counter may rely on. */
  predicate PcOk(c: Config, s: World, pc: Pc) {
    match pc
    case Loading(order) => order in s.db.orders
    case Charging(pid, order, key, amount, k) =>
      && OwnedBy(s.db, pid, order) && s.db.payments[pid].key == key && s.db.payments[pid].amount == amount
      && 1 <= k <= c.maxRetries
    case Persisting(pid, order, o) =>
      && OwnedBy(s.db, pid, order)
      && (c.maxRetries >= 1 && o.Charged? ==>
          s.db.payments[pid].key in s.charged && s.charged[s.db.payments[pid].key] == o.txn)
    case Notifying(pid, order, paid) =>
      OwnedBy(s.db, pid, order) && s.db.payments[pid].status == if paid then Paid else Failed
    case Done(order, clean) => order in s.db.orders && (clean ==> NoPending(s.db, order))
  }

  predicate PcsOk(c: Config, s: World) {
    forall w :: w in s.workers ==> PcOk(c, s, s.workers[w])
  }

  predicate Billed(db: Db, r: Receipt) {
    exists pid :: pid in db.payments && db.payments[pid].key == r.key && db.payments[pid].amount == r.amount
  }

  predicate Receipted(rs: seq<Receipt>, key: string) {
    exists i :: 0 <= i < |rs| && rs[i].key == key
  }

  /** The gateway's map is exactly its receipts, one per key, each for a payment on file. */
  predicate LedgerOk(s: World) {
    && (forall i :: 0 <= i < |s.receipts| ==>
          s.receipts[i].key in s.charged && s.charged[s.receipts[i].key] == s.receipts[i].txn
              && Billed(s.db, s.receipts[i]))
    && (forall i, j :: 0 <= i < j < |s.receipts| ==> s.receipts[i].key != s.receipts[j].key)
    && (forall key :: key in s.charged ==> Receipted(s.receipts, key))
  }

  predicate PaidOk(s: World) {
    forall pid :: pid in s.db.payments && s.db.payments[pid].status == Paid ==>
      s.db.payments[pid].key in s.charged && s.db.payments[pid].txn == Some(s.charged[s.db.payments[pid].key])
  }

  /** Orders keep their user, total and lines for ever, and change status at most once. */
  predicate OrdersGrow(a: Db, b: Db) {
    && (forall o :: o in a.orders ==>
          o in b.orders && b.orders[o].user == a.orders[o].user && b.orders[o].total == a.orders[o].total)
    && (forall o :: o in a.items ==> o in b.items && b.items[o] == a.items[o])
  }

  /** Payments only move from pending to a terminal state, and then both rows stay put. */
  predicate Grows(a: Db, b: Db) {
    && OrdersGrow(a, b)
    && (forall pid :: pid in b.payments && pid !in a.payments ==> b.payments[pid].order !in a.orders)
    && forall pid :: pid in a.payments ==>
         && pid in b.payments
         && b.payments[pid].order == a.payments[pid].order
         && b.payments[pid].key == a.payments[pid].key
         && b.payments[pid].amount == a.payments[pid].amount
         && (!IsPending(a, pid) ==>
               && b.payments[pid] == a.payments[pid]
               && (a.payments[pid].order in a.orders ==>
                   b.orders[a.payments[pid].order] == a.orders[a.payments[pid].order]))
  }

  lemma StepGrounded(c: Config, supply: map<int, int>, s: World, a: Action)
    requires Grounded(supply, s) && Enabled(c, s, a)
    ensures Grounded(supply, Apply(c, s, a))
  {
    match a
    case Create(d) =>
      if Accepts(c.users, s.db, d) {
        DbInvGaps(supply, s.db, s.nextOrder, s.nextPayment, s.nextOrder + 1, s.nextPayment + 1);
        CreatedKeeps(supply, c.users, s.db, s.nextOrder, s.nextPayment, d, s.nextOrder + 1, s.nextPayment + 1);
      }
    case Persist(w) => FinalisedKeeps(supply, s.db, s.workers[w].pid, s.workers[w].outcome, s.nextOrder, s.nextPayment);
    case _ =>
  }

  lemma CreatedGrows(db: Db, oid: nat, pid: nat, d: Draft)
    requires pid !in db.payments && oid !in db.orders && oid !in db.items
    ensures Grows(db, Created(db, oid, pid, d))
  {
    CreatedRows(db, oid, pid, d);
  }

  lemma FinalisedGrowsAt(db: Db, pid: nat, o: Outcome, q: nat)
    requires OnePaymentEach(db) && q in db.payments
    ensures var db' := Finalised(db, pid, o);
            && q in db'.payments && db'.payments[q].order == db.payments[q].order
            && db'.payments[q].key == db.payments[q].key && db'.payments[q].amount == db.payments[q].amount
            && (!IsPending(db, q) ==>
                  && db'.payments[q] == db.payments[q]
                  && (db.payments[q].order in db.orders ==>
                        db.payments[q].order in db'.orders
                            && db'.orders[db.payments[q].order] == db.orders[db.payments[q].order]))
  {
  }

  lemma FinalisedOrdersGrow(db: Db, pid: nat, o: Outcome)
    ensures OrdersGrow(db, Finalised(db, pid, o)) && Finalised(db, pid, o).payments.Keys == db.payments.Keys
  {
    if IsPending(db, pid) {
      match o
      case Charged(txn) => PaidRows(db, pid, txn);
      case Declined => CancelledRows(db, pid);
    }
  }

  lemma FinalisedGrows(db: Db, pid: nat, o: Outcome)
    requires OnePaymentEach(db)
    ensures Grows(db, Finalised(db, pid, o))
  {
    FinalisedOrdersGrow(db, pid, o);
    forall q | q in db.payments
      ensures var db' := Finalised(db, pid, o);
              && q in db'.payments && db'.payments[q].order == db.payments[q].order
              && db'.payments[q].key == db.payments[q].key && db'.payments[q].amount == db.payments[q].amount
              && (!IsPending(db, q) ==>
                    && db'.payments[q] == db.payments[q]
                    && (db.payments[q].order in db.orders ==>
                          db.payments[q].order in db'.orders
                              && db'.orders[db.payments[q].order] == db.orders[db.payments[q].order]))
    {
      FinalisedGrowsAt(db, pid, o, q);
    }
  }

  lemma StepGrows(c: Config, supply: map<int, int>, s: World, a: Action)
    requires Grounded(supply, s) && Enabled(c, s, a)
    ensures Grows(s.db, Apply(c, s, a).db)
  {
    match a
    case Create(d) => CreatedGrows(s.db, s.nextOrder, s.nextPayment, d);
    case Persist(w) => FinalisedGrows(s.db, s.workers[w].pid, s.workers[w].outcome);
    case _ =>
  }

  predicate ChargesGrow(a: map<string, string>, b: map<string, string>) {
    forall key :: key in a ==> key in b && b[key] == a[key]
  }

  lemma StepCharges(c: Config, s: World, a: Action)
    requires Enabled(c, s, a)
    ensures ChargesGrow(s.charged, Apply(c, s, a).charged)
  {
  }

  lemma PcCarries(c: Config, s: World, s': World, pc: Pc)
    requires PcOk(c, s, pc) && Grows(s.db, s'.db) && ChargesGrow(s.charged, s'.charged)
    ensures PcOk(c, s', pc)
  {
    if pc.Done? && pc.clean {
      forall pid | pid in s'.db.payments && s'.db.payments[pid].order == pc.order ensures !IsPending(s'.db, pid) {
        assert pid in s.db.payments ==> !IsPending(s.db, pid);
      }
    }
  }

  lemma SettledOrder(db: Db, pid: nat)
    requires OnePaymentEach(db) && pid in db.payments && !IsPending(db, pid)
    ensures NoPending(db, db.payments[pid].order)
  {
  }

  lemma PersistOk(c: Config, s: World, w: nat)
    requires Enabled(c, s, Persist(w)) && PcOk(c, s, s.workers[w]) && OnePaymentEach(s.db)
    requires Grows(s.db, Apply(c, s, Persist(w)).db)
    ensures PcOk(c, Apply(c, s, Persist(w)), Apply(c, s, Persist(w)).workers[w])
  {
    if !IsPending(s.db, s.workers[w].pid) {
      SettledOrder(s.db, s.workers[w].pid);
    }
  }

  lemma NotifyOk(c: Config, s: World, w: nat, recorded: bool)
    requires Enabled(c, s, Notify(w, recorded)) && PcOk(c, s, s.workers[w]) && OnePaymentEach(s.db)
    ensures PcOk(c, Apply(c, s, Notify(w, recorded)), Apply(c, s, Notify(w, recorded)).workers[w])
  {
    SettledOrder(s.db, s.workers[w].pid);
  }

  lemma AttemptOk(c: Config, s: World, w: nat, reply: Reply)
    requires Enabled(c, s, Attempt(w, reply)) && PcOk(c, s, s.workers[w])
    ensures PcOk(c, Apply(c, s, Attempt(w, reply)), Apply(c, s, Attempt(w, reply)).workers[w])
  {
  }

  lemma LoadOk(c: Config, s: World, w: nat, found: Option<nat>)
    requires Enabled(c, s, Load(w, found)) && PcOk(c, s, s.workers[w])
    ensures PcOk(c, Apply(c, s, Load(w, found)), Apply(c, s, Load(w, found)).workers[w])
  {
  }

  predicate MovesWorker(a: Action) {
    a.Persist? || a.Notify? || a.Attempt? || a.Load?
  }

  lemma PlainOk(c: Config, s: World, a: Action, w: nat)
    requires Enabled(c, s, a) && PcsOk(c, s) && !MovesWorker(a)
    requires w in Apply(c, s, a).workers && (w !in s.workers || Apply(c, s, a).workers[w] != s.workers[w])
    ensures PcOk(c, Apply(c, s, a), Apply(c, s, a).workers[w])
  {
    if w in s.workers {
      assert PcOk(c, s, s.workers[w]);
    }
  }

  /** Only the worker named by the step changes place. */
  lemma OnlyActorMoves(c: Config, s: World, a: Action, w: nat)
    requires Enabled(c, s, a) && MovesWorker(a)
    requires w in Apply(c, s, a).workers && (w !in s.workers || Apply(c, s, a).workers[w] != s.workers[w])
    ensures w == a.w && w in s.workers
  {
  }

  /** The worker that moves lands where the new store allows. */
  lemma ActorOk(c: Config, s: World, a: Action, w: nat)
    requires Enabled(c, s, a) && PcsOk(c, s) && OnePaymentEach(s.db) && Grows(s.db, Apply(c, s, a).db)
    requires w in Apply(c, s, a).workers && (w !in s.workers || Apply(c, s, a).workers[w] != s.workers[w])
    ensures PcOk(c, Apply(c, s, a), Apply(c, s, a).workers[w])
  {
    if !MovesWorker(a) {
      PlainOk(c, s, a, w);
    } else {
      OnlyActorMoves(c, s, a, w);
      assert PcOk(c, s, s.workers[w]);
      match a
      case Persist(_) => PersistOk(c, s, w);
      case Notify(_, recorded) => NotifyOk(c, s, w, recorded);
      case Attempt(_, reply) => AttemptOk(c, s, w, reply);
      case Load(_, found) => LoadOk(c, s, w, found);
    }
  }

  lemma StepPcs(c: Config, supply: map<int, int>, s: World, a: Action)
    requires Grounded(supply, s) && PcsOk(c, s) && Enabled(c, s, a)
    ensures PcsOk(c, Apply(c, s, a))
  {
    var s' := Apply(c, s, a);
    StepGrows(c, supply, s, a);
    StepCharges(c, s, a);
    forall w | w in s'.workers ensures PcOk(c, s', s'.workers[w]) {
      if w in s.workers && s'.workers[w] == s.workers[w] {
        assert PcOk(c, s, s.workers[w]);
        PcCarries(c, s, s', s.workers[w]);
      } else {
        ActorOk(c, s, a, w);
      }
    }
  }

  lemma BilledStays(a: Db, b: Db, r: Receipt)
    requires Billed(a, r) && Grows(a, b)
    ensures Billed(b, r)
  {
    var pid :| pid in a.payments && a.payments[pid].key == r.key && a.payments[pid].amount == r.amount;
    assert b.payments[pid].key == r.key && b.payments[pid].amount == r.amount;
  }

  lemma LedgerGrows(s: World, s': World)
    requires LedgerOk(s) && Grows(s.db, s'.db) && s'.charged == s.charged && s'.receipts == s.receipts
    ensures LedgerOk(s')
  {
    forall i | 0 <= i < |s.receipts| ensures Billed(s'.db, s.receipts[i]) {
      BilledStays(s.db, s'.db, s.receipts[i]);
    }
  }

  lemma ReceiptedMore(rs: seq<Receipt>, r: Receipt, key: string)
    requires Receipted(rs, key) || key == r.key
    ensures Receipted(rs + [r], key)
  {
    if key == r.key {
      assert (rs + [r])[|rs|].key == key;
    } else {
      var i :| 0 <= i < |rs| && rs[i].key == key;
      assert (rs + [r])[i].key == key;
    }
  }

  lemma NewReceipt(s: World, s': World, r: Receipt)
    requires LedgerOk(s) && r.key !in s.charged && Billed(s.db, r)
    requires s'.db == s.db && s'.charged == s.charged[r.key := r.txn] && s'.receipts == s.receipts + [r]
    ensures LedgerOk(s')
  {
    forall i | 0 <= i < |s'.receipts|
      ensures s'.receipts[i].key in s'.charged && s'.charged[s'.receipts[i].key] == s'.receipts[i].txn
                && Billed(s'.db, s'.receipts[i])
    {
      if i < |s.receipts| {
        assert s'.receipts[i] == s.receipts[i] && s.receipts[i].key in s.charged;
      }
    }
    forall key | key in s'.charged ensures Receipted(s'.receipts, key) {
      ReceiptedMore(s.receipts, r, key);
    }
  }

  lemma ChargeLedger(c: Config, s: World, w: nat, txn: string)
    requires LedgerOk(s) && w in s.workers && s.workers[w].Charging? && PcOk(c, s, s.workers[w])
               && s.workers[w].key !in s.charged
    ensures LedgerOk(Apply(c, s, Attempt(w, Accepted(txn))))
  {
    var pc := s.workers[w];
    assert s.db.payments[pc.pid].key == pc.key;
    NewReceipt(s, Apply(c, s, Attempt(w, Accepted(txn))), Receipt(pc.key, pc.amount, txn));
  }

  predicate Charges(c: Config, s: World, a: Action)
    requires Enabled(c, s, a)
  {
    a.Attempt? && a.reply.Accepted? && s.workers[a.w].key !in s.charged
  }

  lemma NoCharge(c: Config, s: World, a: Action)
    requires Enabled(c, s, a) && !Charges(c, s, a)
    ensures Apply(c, s, a).charged == s.charged && Apply(c, s, a).receipts == s.receipts
  {
  }

  lemma StepLedger(c: Config, s: World, a: Action)
    requires PcsOk(c, s) && LedgerOk(s) && Enabled(c, s, a) && Grows(s.db, Apply(c, s, a).db)
    ensures LedgerOk(Apply(c, s, a))
  {
    if Charges(c, s, a) {
      assert PcOk(c, s, s.workers[a.w]);
      ChargeLedger(c, s, a.w, a.reply.txn);
    } else {
      NoCharge(c, s, a);
      LedgerGrows(s, Apply(c, s, a));
    }
  }

  lemma StepPaid(c: Config, s: World, a: Action)
    requires c.maxRetries >= 1 && PcsOk(c, s) && PaidOk(s) && Enabled(c, s, a)
    ensures PaidOk(Apply(c, s, a))
  {
    if a.Persist? {
      assert PcOk(c, s, s.workers[a.w]);
    }
  }

  // ---------------------------------------------------------------- who wins and who tells

  /** A payment is terminal exactly when one finalise call returned true for it, and only one ever does. */
  predicate WinsOk(s: World) {
    && NoRepeats(s.wins)
    && (forall pid :: pid in s.wins ==> pid in s.db.payments)
    && (forall pid :: pid in s.db.payments ==> (pid in s.wins <==> !IsPending(s.db, pid)))
  }

  predicate Told(s: World, order: nat) {
    exists i :: 0 <= i < |s.notes| && s.notes[i].order == order
  }

  predicate Telling(s: World, order: nat) {
    exists w :: w in s.workers && s.workers[w].Notifying? && s.workers[w].order == order
  }

  predicate NoteTrue(db: Db, n: Note) {
    exists pid :: pid in db.payments && db.payments[pid].order == n.order
        && db.payments[pid].status == if n.paid then Paid else Failed
  }

  /** A terminal order has been told, is being told, or was dropped, and only one of these; a pending one none. */
  predicate FateOk(s: World, pid: nat)
    requires pid in s.db.payments
  {
    var o := s.db.payments[pid].order;
    && (!IsPending(s.db, pid) <==> Told(s, o) || Telling(s, o) || o in s.dropped)
    && !(Told(s, o) && Telling(s, o)) && !(Told(s, o) && o in s.dropped) && !(Telling(s, o) && o in s.dropped)
  }

  predicate TellersApart(s: World) {
    forall v, w :: v in s.workers && w in s.workers && v != w && s.workers[v].Notifying? && s.workers[w].Notifying? ==>
      s.workers[v].order != s.workers[w].order
  }

  /** At most one note per order, each matching its payment. */
  predicate NotesOk(s: World) {
    && (forall i, j :: 0 <= i < j < |s.notes| ==> s.notes[i].order != s.notes[j].order)
    && (forall i :: 0 <= i < |s.notes| ==> NoteTrue(s.db, s.notes[i]))
    && TellersApart(s)
    && (forall o :: o in s.dropped ==> o in s.db.orders)
    && (forall pid :: pid in s.db.payments ==> FateOk(s, pid))
  }

  lemma StepWins(c: Config, s: World, a: Action)
    requires WinsOk(s) && Enabled(c, s, a) && IdsBelow(s.db, s.nextOrder, s.nextPayment)
    ensures WinsOk(Apply(c, s, a))
  {
    if a.Persist? && IsPending(s.db, s.workers[a.w].pid) {
      var pid := s.workers[a.w].pid;
      assert forall q :: q in s.wins + [pid] <==> q in s.wins || q == pid;
    }
  }

  lemma NoteStays(a: Db, b: Db, n: Note)
    requires NoteTrue(a, n) && Grows(a, b)
    ensures NoteTrue(b, n)
  {
    var pid :| pid in a.payments && a.payments[pid].order == n.order
        && a.payments[pid].status == if n.paid then Paid else Failed;
    assert b.payments[pid] == a.payments[pid];
  }

  lemma NotesUnderStay(s: World, s': World)
    requires NotesOk(s) && Grows(s.db, s'.db) && s'.notes == s.notes
    ensures forall i :: 0 <= i < |s'.notes| ==> NoteTrue(s'.db, s'.notes[i])
    ensures forall o :: Told(s', o) <==> Told(s, o)
  {
    forall i | 0 <= i < |s.notes| ensures NoteTrue(s'.db, s.notes[i]) {
      NoteStays(s.db, s'.db, s.notes[i]);
    }
  }

  /** A told order is on file. */
  lemma ToldOnFile(s: World, o: nat)
    requires NotesOk(s) && Told(s, o)
    requires forall pid :: pid in s.db.payments ==> OrderIntact(s.db.stock, s.db, pid)
    ensures o in s.db.orders
  {
    var i :| 0 <= i < |s.notes| && s.notes[i].order == o;
    assert NoteTrue(s.db, s.notes[i]);
    var pid :| pid in s.db.payments && s.db.payments[pid].order == o;
    assert OrderIntact(s.db.stock, s.db, pid);
  }

  lemma FateSame(s: World, s': World, pid: nat)
    requires pid in s.db.payments && FateOk(s, pid)
    requires pid in s'.db.payments && s'.db.payments[pid] == s.db.payments[pid]
    requires var o := s.db.payments[pid].order;
             (Told(s', o) <==> Told(s, o)) && (Telling(s', o) <==> Telling(s, o))
                 && (o in s'.dropped <==> o in s.dropped)
    ensures FateOk(s', pid)
  {
  }

  /** Nobody has spoken of an order that does not exist yet. */
  lemma UnheardOf(c: Config, supply: map<int, int>, s: World, o: nat)
    requires Grounded(supply, s) && PcsOk(c, s) && NotesOk(s) && o !in s.db.orders
    ensures !Told(s, o) && !Telling(s, o) && o !in s.dropped
  {
    if Told(s, o) {
      ToldOnFile(s, o);
    }
    forall w | w in s.workers && s.workers[w].Notifying? ensures s.workers[w].order != o {
      assert PcOk(c, s, s.workers[w]);
    }
  }

  lemma NotesAfterCreate(c: Config, supply: map<int, int>, s: World, d: Draft)
    requires Grounded(supply, s) && PcsOk(c, s) && NotesOk(s) && Accepts(c.users, s.db, d)
    ensures NotesOk(Apply(c, s, Create(d)))
  {
    UnheardOf(c, supply, s, s.nextOrder);
    NotesAfterFresh(s, Apply(c, s, Create(d)), s.nextOrder, s.nextPayment, d);
  }

  lemma NotesAfterFresh(s: World, s': World, oid: nat, pid: nat, d: Draft)
    requires NotesOk(s) && pid !in s.db.payments && oid !in s.db.orders && oid !in s.db.items
    requires !Told(s, oid) && !Telling(s, oid) && oid !in s.dropped
    requires s' == s.(db := Created(s.db, oid, pid, d), drafts := s'.drafts,
                      nextOrder := s'.nextOrder, nextPayment := s'.nextPayment)
    ensures NotesOk(s')
  {
    CreatedGrows(s.db, oid, pid, d);
    NotesUnderStay(s, s');
    assert forall x :: Telling(s', x) <==> Telling(s, x);
    forall q | q in s'.db.payments ensures FateOk(s', q) {
      if q != pid {
        assert FateOk(s, q);
        FateSame(s, s', q);
      }
    }
  }

  /** Steps that neither finish a payment nor notify leave the record of notifications as it was. */
  lemma NotesQuiet(s: World, s': World)
    requires NotesOk(s) && s'.db == s.db && s'.notes == s.notes && s'.dropped == s.dropped
    requires forall w :: w in s.workers && s.workers[w].Notifying? ==> w in s'.workers && s'.workers[w] == s.workers[w]
    requires forall w :: w in s'.workers && s'.workers[w].Notifying? ==> w in s.workers && s'.workers[w] == s.workers[w]
    ensures NotesOk(s')
  {
    forall o ensures Telling(s', o) <==> Telling(s, o) {
      if Telling(s, o) {
        var w :| w in s.workers && s.workers[w].Notifying? && s.workers[w].order == o;
        assert s'.workers[w].order == o;
      }
      if Telling(s', o) {
        var w :| w in s'.workers && s'.workers[w].Notifying? && s'.workers[w].order == o;
        assert s.workers[w].order == o;
      }
    }
    assert forall o :: Told(s', o) <==> Told(s, o);
  }

  /** Which orders are being told once worker w has moved to a new program counter. */
  lemma TellingAfterMove(s: World, s': World, w: nat)
    requires w in s.workers
    requires forall v :: v != w ==> (v in s.workers <==> v in s'.workers)
    requires forall v :: v != w && v in s.workers ==> s'.workers[v] == s.workers[v]
    requires TellersApart(s)
    ensures forall o :: Telling(s', o) <==>
              || (Telling(s, o) && !(s.workers[w].Notifying? && s.workers[w].order == o))
              || (w in s'.workers && s'.workers[w].Notifying? && s'.workers[w].order == o)
  {
    forall o ensures Telling(s', o) <==>
              || (Telling(s, o) && !(s.workers[w].Notifying? && s.workers[w].order == o))
              || (w in s'.workers && s'.workers[w].Notifying? && s'.workers[w].order == o)
    {
      if Telling(s', o) {
        var v :| v in s'.workers && s'.workers[v].Notifying? && s'.workers[v].order == o;
        assert v != w ==> s.workers[v].order == o;
      }
      if Telling(s, o) {
        var v :| v in s.workers && s.workers[v].Notifying? && s.workers[v].order == o;
        assert v != w ==> s'.workers[v].order == o;
      }
    }
  }

  lemma TellersAfterWin(c: Config, s: World, w: nat)
    requires Enabled(c, s, Persist(w)) && IsPending(s.db, s.workers[w].pid) && PcOk(c, s, s.workers[w]) && NotesOk(s)
    ensures !Told(s, s.workers[w].order) && !Telling(s, s.workers[w].order) && s.workers[w].order !in s.dropped
    ensures TellersApart(Apply(c, s, Persist(w)))
  {
    var pc := s.workers[w];
    assert FateOk(s, pc.pid);
    forall v | v in s.workers && v != w && s.workers[v].Notifying? ensures s.workers[v].order != pc.order {
      assert !Telling(s, pc.order);
    }
  }

  lemma OthersUnfinished(db: Db, pid: nat, o: Outcome, q: nat)
    requires OnePaymentEach(db) && q in Finalised(db, pid, o).payments && q != pid
    ensures q in db.payments && Finalised(db, pid, o).payments[q] == db.payments[q]
    ensures pid in db.payments ==> db.payments[q].order != db.payments[pid].order
  {
  }

  lemma NotesAfterWin(c: Config, s: World, w: nat)
    requires Enabled(c, s, Persist(w)) && IsPending(s.db, s.workers[w].pid)
    requires OnePaymentEach(s.db) && PcOk(c, s, s.workers[w]) && NotesOk(s)
    ensures NotesOk(Apply(c, s, Persist(w)))
  {
    var s' := Apply(c, s, Persist(w));
    var pc := s.workers[w];
    FinalisedGrows(s.db, pc.pid, pc.outcome);
    NotesUnderStay(s, s');
    TellersAfterWin(c, s, w);
    TellingAfterMove(s, s', w);
    forall q | q in s'.db.payments ensures FateOk(s', q) {
      if q != pc.pid {
        OthersUnfinished(s.db, pc.pid, pc.outcome, q);
        FateSame(s, s', q);
      }
    }
  }

  lemma ToldAfter(s: World, s': World, n: Note)
    requires s'.notes == s.notes + [n]
    ensures forall o :: Told(s', o) <==> Told(s, o) || o == n.order
  {
    assert s'.notes[|s.notes|] == n;
    forall o | Told(s, o) ensures Told(s', o) {
      var i :| 0 <= i < |s.notes| && s.notes[i].order == o;
      assert s'.notes[i].order == o;
    }
  }

  lemma NotesAfterTelling(c: Config, s: World, w: nat)
    requires PcsOk(c, s) && NotesOk(s) && Enabled(c, s, Notify(w, true))
    ensures NotesOk(Apply(c, s, Notify(w, true)))
  {
    var s' := Apply(c, s, Notify(w, true));
    var pc := s.workers[w];
    assert PcOk(c, s, pc);
    assert Telling(s, pc.order);
    TellingAfterMove(s, s', w);
    ToldAfter(s, s', Note(pc.order, pc.paid));
    assert NoteTrue(s'.db, Note(pc.order, pc.paid));
    assert FateOk(s, pc.pid) && !Told(s, pc.order);
    forall q | q in s.db.payments ensures FateOk(s', q) {
      assert FateOk(s, q);
    }
  }

  lemma NotesAfterDropping(c: Config, s: World, w: nat)
    requires PcsOk(c, s) && NotesOk(s) && Enabled(c, s, Notify(w, false))
    ensures NotesOk(Apply(c, s, Notify(w, false)))
  {
    var s' := Apply(c, s, Notify(w, false));
    assert PcOk(c, s, s.workers[w]);
    assert Telling(s, s.workers[w].order);
    TellingAfterMove(s, s', w);
    assert forall o :: Told(s', o) <==> Told(s, o);
  }

  lemma NotesAfterCrash(c: Config, s: World, w: nat)
    requires PcsOk(c, s) && NotesOk(s) && Enabled(c, s, Crash(w)) && s.workers[w].Notifying?
    ensures NotesOk(Apply(c, s, Crash(w)))
  {
    var s' := Apply(c, s, Crash(w));
    assert PcOk(c, s, s.workers[w]);
    assert Telling(s, s.workers[w].order);
    TellingAfterMove(s, s', w);
    assert forall o :: Told(s', o) <==> Told(s, o);
  }

  predicate TouchesNotes(c: Config, s: World, a: Action)
    requires Enabled(c, s, a)
  {
    || (a.Create? && Accepts(c.users, s.db, a.draft))
    || (a.Persist? && IsPending(s.db, s.workers[a.w].pid))
    || a.Notify?
    || (a.Crash? && s.workers[a.w].Notifying?)
  }

  lemma StepQuiet(c: Config, s: World, a: Action)
    requires NotesOk(s) && Enabled(c, s, a) && !TouchesNotes(c, s, a)
    ensures NotesOk(Apply(c, s, a))
  {
    NotesQuiet(s, Apply(c, s, a));
  }

  lemma StepNotes(c: Config, supply: map<int, int>, s: World, a: Action)
    requires Grounded(supply, s) && PcsOk(c, s) && NotesOk(s) && Enabled(c, s, a)
    ensures NotesOk(Apply(c, s, a))
  {
    if !TouchesNotes(c, s, a) {
      StepQuiet(c, s, a);
    } else {
      match a
      case Create(d) => NotesAfterCreate(c, supply, s, d);
      case Persist(w) => NotesAfterWin(c, s, w);
      case Notify(w, recorded) =>
        if recorded {
          NotesAfterTelling(c, s, w);
        } else {
          NotesAfterDropping(c, s, w);
        }
      case Crash(w) => NotesAfterCrash(c, s, w);
    }
  }

  // ---------------------------------------------------------------- the rows hold what was ordered

  predicate AsDrafted(s: World) {
    forall pid :: pid in s.db.payments ==> pid in s.drafts && Drafted(s.db, pid, s.drafts[pid])
  }

  lemma CreateDrafted(c: Config, s: World, d: Draft)
    requires AsDrafted(s) && Accepts(c.users, s.db, d) && IdsBelow(s.db, s.nextOrder, s.nextPayment)
    ensures AsDrafted(Apply(c, s, Create(d)))
  {
    var s' := Apply(c, s, Create(d));
    CreatedDraft(s.db, s.nextOrder, s.nextPayment, d);
    forall pid | pid in s.db.payments ensures pid in s'.drafts && Drafted(s'.db, pid, s'.drafts[pid]) {
      CreatedKeepsDraft(s.db, s.nextOrder, s.nextPayment, d, pid, s.drafts[pid]);
    }
  }

  lemma FinalisedDrafted(s: World, s': World, pid: nat, o: Outcome)
    requires AsDrafted(s) && s'.db == Finalised(s.db, pid, o) && s'.drafts == s.drafts
    ensures AsDrafted(s')
  {
    FinalisedOrdersGrow(s.db, pid, o);
    forall q | q in s.db.payments ensures Drafted(s'.db, q, s.drafts[q]) {
      FinalisedKeepsDraft(s.db, pid, o, q, s.drafts[q]);
    }
  }

  lemma SameStore(c: Config, s: World, a: Action)
    requires Enabled(c, s, a) && !a.Create? && !a.Persist?
    ensures Apply(c, s, a).db == s.db && Apply(c, s, a).drafts == s.drafts
  {
  }

  lemma StepDrafted(c: Config, s: World, a: Action)
    requires AsDrafted(s) && Enabled(c, s, a) && IdsBelow(s.db, s.nextOrder, s.nextPayment)
    ensures AsDrafted(Apply(c, s, a))
  {
    match a
    case Create(d) => if Accepts(c.users, s.db, d) { CreateDrafted(c, s, d); }
    case Persist(w) => FinalisedDrafted(s, Apply(c, s, a), s.workers[w].pid, s.workers[w].outcome);
    case _ => SameStore(c, s, a);
  }

  // ---------------------------------------------------------------- every run

  predicate Inv(c: Config, supply: map<int, int>, s: World) {
    && Grounded(supply, s) && PcsOk(c, s) && LedgerOk(s) && WinsOk(s) && NotesOk(s) && AsDrafted(s)
    && (c.maxRetries >= 1 ==> PaidOk(s))
  }

  lemma StepInv(c: Config, supply: map<int, int>, s: World, a: Action)
    requires Inv(c, supply, s) && Enabled(c, s, a)
    ensures Inv(c, supply, Apply(c, s, a)) && Grows(s.db, Apply(c, s, a).db)
  {
    StepGrounded(c, supply, s, a);
    StepGrows(c, supply, s, a);
    StepPcs(c, supply, s, a);
    StepLedger(c, s, a);
    StepWins(c, s, a);
    StepNotes(c, supply, s, a);
    StepDrafted(c, s, a);
    if c.maxRetries >= 1 {
      StepPaid(c, s, a);
    }
  }

  lemma GrowsTransitive(a: Db, b: Db, d: Db)
    requires Grows(a, b) && Grows(b, d)
    ensures Grows(a, d)
  {
    forall pid | pid in d.payments && pid !in a.payments ensures d.payments[pid].order !in a.orders {
      if pid in b.payments {
        assert b.payments[pid].order !in a.orders;
      } else {
        assert d.payments[pid].order !in b.orders;
      }
    }
    forall pid | pid in a.payments && !IsPending(a, pid) ensures d.payments[pid] == a.payments[pid] {
      assert !IsPending(b, pid);
    }
  }

  lemma {:induction false} RunInv(c: Config, supply: map<int, int>, s: World, acts: seq<Action>)
    requires Inv(c, supply, s) && Exec(c, s, acts).Some?
    ensures Inv(c, supply, Exec(c, s, acts).value) && Grows(s.db, Exec(c, s, acts).value.db)
    decreases |acts|
  {
    if acts != [] {
      var s' := Apply(c, s, acts[0]);
      StepInv(c, supply, s, acts[0]);
      RunInv(c, supply, s', acts[1..]);
      GrowsTransitive(s.db, s'.db, Exec(c, s, acts).value.db);
    }
  }

  lemma InitInv(c: Config, supply: map<int, int>)
    requires forall p :: p in supply ==> supply[p] >= 0
    ensures Inv(c, supply, Init(supply))
  {
  }

  ghost predicate Reaches(c: Config, supply: map<int, int>, s: World) {
    && (forall p :: p in supply ==> supply[p] >= 0)
    && exists acts :: Exec(c, Init(supply), acts) == Some(s)
  }

  lemma ReachesInv(c: Config, supply: map<int, int>, s: World)
    requires Reaches(c, supply, s)
    ensures Inv(c, supply, s)
  {
    InitInv(c, supply);
    var acts :| Exec(c, Init(supply), acts) == Some(s);
    RunInv(c, supply, Init(supply), acts);
  }

  /** Never oversold, never leaked: stock plus what live orders hold is the supply, in every reachable state. */
  lemma StockConserved(c: Config, supply: map<int, int>, s: World, p: int)
    requires Reaches(c, supply, s) && p in supply
    ensures p in s.db.stock && 0 <= s.db.stock[p] <= supply[p]
    ensures s.db.stock[p] + Held(s.db, p, s.nextPayment) == supply[p]
  {
    ReachesInv(c, supply, s);
    HeldNonNegative(s.db, p, s.nextPayment);
  }

  /** Each order has one payment, and the two statuses are one of the three pairs. */
  lemma CoupledStates(c: Config, supply: map<int, int>, s: World, order: nat)
    requires Reaches(c, supply, s) && order in s.db.orders
    ensures exists pid :: pid in s.db.payments && s.db.payments[pid].order == order &&
              Coupled(s.db.payments[pid], s.db.orders[order]) &&
              forall q :: q in s.db.payments && s.db.payments[q].order == order ==> q == pid
  {
    ReachesInv(c, supply, s);
    var pid :| pid in s.db.payments && s.db.payments[pid].order == order;
    assert OrderIntact(s.db.stock, s.db, pid);
  }

  /** In every reachable state the order, its lines and its payment hold exactly what was ordered. */
  lemma KeptAsOrdered(c: Config, supply: map<int, int>, s: World, pid: nat)
    requires Reaches(c, supply, s) && pid in s.db.payments
    ensures pid in s.drafts
    ensures var d, pay := s.drafts[pid], s.db.payments[pid];
            && pay.order in s.db.orders && pay.order in s.db.items
            && pay.key == d.key && pay.amount == d.amount
            && s.db.orders[pay.order].user == d.user && s.db.orders[pay.order].total == d.total
            && s.db.items[pay.order] == d.items
            && (BilledRight(d) ==> pay.amount == s.db.orders[pay.order].total == Bill(s.db.items[pay.order]))
  {
    ReachesInv(c, supply, s);
  }

  /** Whatever runs later, an order keeps its user, total and lines, and a payment its order, key and amount. */
  lemma OrderedForever(c: Config, supply: map<int, int>, s: World, acts: seq<Action>, pid: nat)
    requires Reaches(c, supply, s) && Exec(c, s, acts).Some? && pid in s.db.payments
    ensures var was, later, o := s.db, Exec(c, s, acts).value.db, s.db.payments[pid].order;
            && pid in later.payments && later.payments[pid].order == o
            && later.payments[pid].key == was.payments[pid].key
                && later.payments[pid].amount == was.payments[pid].amount
            && o in was.orders && o in later.orders && o in was.items && o in later.items
            && later.orders[o].user == was.orders[o].user && later.orders[o].total == was.orders[o].total
            && later.items[o] == was.items[o]
  {
    ReachesInv(c, supply, s);
    assert OrderIntact(s.db.stock, s.db, pid);
    RunInv(c, supply, s, acts);
  }

  /** Once terminal, a payment and its order never change again, whatever runs later. */
  lemma TerminalForever(c: Config, supply: map<int, int>, s: World, acts: seq<Action>, pid: nat)
    requires Reaches(c, supply, s) && Exec(c, s, acts).Some?
    requires pid in s.db.payments && !IsPending(s.db, pid)
    ensures var later := Exec(c, s, acts).value.db;
            && pid in later.payments && later.payments[pid] == s.db.payments[pid]
            && s.db.payments[pid].order in s.db.orders && s.db.payments[pid].order in later.orders
            && later.orders[s.db.payments[pid].order] == s.db.orders[s.db.payments[pid].order]
  {
    ReachesInv(c, supply, s);
    assert OrderIntact(s.db.stock, s.db, pid);
    RunInv(c, supply, s, acts);
  }

  /** At most one finalise call per payment ever returns true, and a terminal payment had one. */
  lemma OneWinner(c: Config, supply: map<int, int>, s: World, pid: nat)
    requires Reaches(c, supply, s) && pid in s.db.payments
    ensures multiset(s.wins)[pid] == if IsPending(s.db, pid) then 0 else 1
  {
    ReachesInv(c, supply, s);
    CountOnce(s.wins, pid);
  }

  /**
   An order is told at most once and truthfully; a terminal one exactly once unless the
   telling is still under way or was lost to a crash or a store error.
   */
  lemma ToldOnceTruthfully(c: Config, supply: map<int, int>, s: World, pid: nat)
    requires Reaches(c, supply, s) && pid in s.db.payments
    ensures var o := s.db.payments[pid].order;
            && (forall i, j :: 0 <= i < |s.notes| && 0 <= j < |s.notes| &&
                               s.notes[i].order == o && s.notes[j].order == o ==>
                  i == j)
            && (forall i :: 0 <= i < |s.notes| && s.notes[i].order == o ==>
                  s.db.payments[pid].status == if s.notes[i].paid then Paid else Failed)
            && (!IsPending(s.db, pid) && !Telling(s, o) && o !in s.dropped ==>
                exists i :: 0 <= i < |s.notes| && s.notes[i].order == o)
  {
    ReachesInv(c, supply, s);
    assert FateOk(s, pid);
    forall i | 0 <= i < |s.notes| && s.notes[i].order == s.db.payments[pid].order
      ensures s.db.payments[pid].status == if s.notes[i].paid then Paid else Failed
    {
      assert NoteTrue(s.db, s.notes[i]);
    }
  }

  /** A worker that returns without a store error leaves its order with no pending payment, now and for good. */
  lemma CompletedSettles(c: Config, supply: map<int, int>, s: World, w: nat, acts: seq<Action>)
    requires Reaches(c, supply, s) && w in s.workers && s.workers[w].Done? && s.workers[w].clean
    requires Exec(c, s, acts).Some?
    ensures NoPending(s.db, s.workers[w].order) && NoPending(Exec(c, s, acts).value.db, s.workers[w].order)
  {
    ReachesInv(c, supply, s);
    assert PcOk(c, s, s.workers[w]);
    RunInv(c, supply, s, acts);
    PcCarries(c, s, s.(db := Exec(c, s, acts).value.db), s.workers[w]);
  }

  /** The gateway takes the money for a key at most once. */
  lemma ChargedAtMostOnce(c: Config, supply: map<int, int>, s: World, i: nat, j: nat)
    requires Reaches(c, supply, s) && i < |s.receipts| && j < |s.receipts| && s.receipts[i].key == s.receipts[j].key
    ensures i == j
  {
    ReachesInv(c, supply, s);
  }
}
