/**
 The statement-level transactions do what the single steps say: from an idle system every create the
 single step accepts, and every finalise, has a run that commits it with exactly that effect.
 */
module Alone {
  import opened Orders
  import opened Transactions

  /** The system with one open transaction, and with none. */
  function One(db: Db, x: Txn, m: nat, n: nat, log: seq<Entry>): System {
    System(db, map[0 := x], m, n, log)
  }

  function Idle(db: Db, m: nat, n: nat, log: seq<Entry>): System {
    System(db, map[], m, n, log)
  }

  // ---------------------------------------------------------------- runs between two states

  ghost predicate Leads(env: Env, s: System, e: System) {
    exists acts :: Exec(env, s, acts) == Some(e)
  }

  lemma {:induction false} ExecConcat(env: Env, s: System, first: seq<Action>, second: seq<Action>)
    requires Exec(env, s, first).Some?
    ensures Exec(env, s, first + second) == Exec(env, Exec(env, s, first).value, second)
    decreases |first|
  {
    if first == [] {
      assert first + second == second;
    } else {
      assert (first + second)[1..] == first[1..] + second;
      ExecConcat(env, Apply(env, s, first[0]), first[1..], second);
    }
  }

  lemma LeadsOn(env: Env, a: System, b: System, c: System)
    requires Leads(env, a, b) && Leads(env, b, c)
    ensures Leads(env, a, c)
  {
    var first :| Exec(env, a, first) == Some(b);
    var second :| Exec(env, b, second) == Some(c);
    ExecConcat(env, a, first, second);
  }

  lemma LeadsStep(env: Env, s: System, a: Action)
    requires Enabled(env, s, a)
    ensures Leads(env, s, Apply(env, s, a))
  {
    assert [a][1..] == [];
    assert Exec(env, s, [a]) == Some(Apply(env, s, a));
  }

  lemma LeadsSelf(env: Env, s: System)
    ensures Leads(env, s, s)
  {
    assert Exec(env, s, []) == Some(s);
  }

  predicate ScanFits(env: Env, db: Db, x: Txn, scan: seq<Item>) {
    x.Finalising? && x.fphase.SelectItems? ==>
      x.order in db.items && multiset(scan) == multiset(db.items[x.order]) && (env.sortedScans ==> Ascending(scan))
  }

  /** Nobody is there to wait for. */
  lemma OneSteps(env: Env, db: Db, x: Txn, m: nat, n: nat, log: seq<Entry>, scan: seq<Item>, x': Txn)
    requires HasStatement(x) && ScanFits(env, db, x, scan) && x' == Next(env, One(db, x, m, n, log), x, scan)
    ensures Leads(env, One(db, x, m, n, log),
                  One(db, x', if x.Creating? && x.cphase.InsertOrder? then m + 1 else m,
                      if x.Creating? && x.cphase.InsertPayment? then n + 1 else n, log))
  {
    var s := One(db, x, m, n, log);
    assert !Blocked(s, 0);
    assert Apply(env, s, Statement(0, scan)).txns == map[0 := x'];
    LeadsStep(env, s, Statement(0, scan));
  }

  lemma OneCommits(env: Env, db: Db, x: Txn, m: nat, n: nat, log: seq<Entry>)
    requires MayCommit(x)
    ensures Leads(env, One(db, x, m, n, log), Idle(Merge(db, x.writes), m, n, log + [LogEntry(x)]))
  {
    var s := One(db, x, m, n, log);
    assert Apply(env, s, Commit(0)).txns == map[];
    LeadsStep(env, s, Commit(0));
  }

  // ---------------------------------------------------------------- a create

  lemma ServedInTurn(db: Db, d: Draft, i: nat)
    requires ValidLines(d.items) && Covers(db.stock, d.items) && i < |d.items|
    ensures Served(db.stock + CreateWrites(db, d, Reserving(i)).stock, d.items[i]) && d.items[i].product in db.stock
  {
    assert Served(db.stock, d.items[i]);
    assert !Touches(d.items[..i], d.items[i].product);
  }

  function Inserting(db: Db, d: Draft, ph: CreatePhase): Txn {
    Creating(d, ph, CreateWrites(db, d, ph))
  }

  /** The system once i lines are reserved. */
  function ReservedAt(db: Db, d: Draft, i: nat, m: nat, n: nat, log: seq<Entry>): System {
    One(db, Inserting(db, d, AfterReserve(d, i)), m, n, log)
  }

  lemma ReservesOne(env: Env, db: Db, d: Draft, i: nat, m: nat, n: nat, log: seq<Entry>)
    requires ValidLines(d.items) && Covers(db.stock, d.items) && i < |d.items|
    ensures Leads(env, ReservedAt(db, d, i, m, n, log), ReservedAt(db, d, i + 1, m, n, log))
  {
    ServedInTurn(db, d, i);
    ReserveNext(env, db, d, i, CreateWrites(db, d, Reserving(i)), m, n);
    OneSteps(env, db, Inserting(db, d, Reserving(i)), m, n, log, [], Inserting(db, d, AfterReserve(d, i + 1)));
  }

  lemma {:induction false} ReservesAll(env: Env, db: Db, d: Draft, i: nat, m: nat, n: nat, log: seq<Entry>)
    requires ValidLines(d.items) && Covers(db.stock, d.items) && i <= |d.items|
    ensures Leads(env, ReservedAt(db, d, 0, m, n, log), ReservedAt(db, d, i, m, n, log))
  {
    if i == 0 {
      LeadsSelf(env, ReservedAt(db, d, 0, m, n, log));
    } else {
      ReservesAll(env, db, d, i - 1, m, n, log);
      ReservesOne(env, db, d, i - 1, m, n, log);
      LeadsOn(env, ReservedAt(db, d, 0, m, n, log), ReservedAt(db, d, i - 1, m, n, log),
              ReservedAt(db, d, i, m, n, log));
    }
  }

  lemma InsertsAll(env: Env, db: Db, d: Draft, m: nat, n: nat, log: seq<Entry>)
    requires Accepts(env.users, db, d)
    ensures Leads(env, ReservedAt(db, d, |d.items|, m, n, log),
                  One(db, Inserting(db, d, CreateReady(m, n)), m + 1, n + 1, log))
  {
    OneSteps(env, db, Inserting(db, d, InsertOrder), m, n, log, [], Inserting(db, d, InsertItems(m)));
    OneSteps(env, db, Inserting(db, d, InsertItems(m)), m + 1, n, log, [], Inserting(db, d, InsertPayment(m)));
    OneSteps(env, db, Inserting(db, d, InsertPayment(m)), m + 1, n, log, [], Inserting(db, d, CreateReady(m, n)));
    var s1 := One(db, Inserting(db, d, InsertItems(m)), m + 1, n, log);
    var s2 := One(db, Inserting(db, d, InsertPayment(m)), m + 1, n, log);
    var s3 := One(db, Inserting(db, d, CreateReady(m, n)), m + 1, n + 1, log);
    LeadsOn(env, ReservedAt(db, d, |d.items|, m, n, log), s1, s2);
    LeadsOn(env, ReservedAt(db, d, |d.items|, m, n, log), s2, s3);
  }

  lemma BeginsCreate(env: Env, db: Db, d: Draft, m: nat, n: nat, log: seq<Entry>)
    requires KeyFree(db, d.key) && (env.sortedCarts ==> Ascending(d.items))
    ensures Leads(env, Idle(db, m, n, log), ReservedAt(db, d, 0, m, n, log))
  {
    assert d.items[..0] == [];
    assert TakenPart(db.stock, []) == map[];
    assert d.items == [] ==> d.items[..|d.items|] == [];
    assert Inserting(db, d, AfterReserve(d, 0)) == Creating(d, AfterReserve(d, 0), NoWrites);
    LeadsStep(env, Idle(db, m, n, log), BeginCreate(0, d));
  }

  /** A create the single step accepts, run alone, commits with exactly that step's rows. */
  lemma CreateRunsAlone(env: Env, db: Db, d: Draft, m: nat, n: nat, log: seq<Entry>)
    requires Accepts(env.users, db, d) && (env.sortedCarts ==> Ascending(d.items))
    ensures exists acts :: Exec(env, Idle(db, m, n, log), acts) ==
                           Some(Idle(Created(db, m, n, d), m + 1, n + 1, log + [Create(m, n, d)]))
  {
    var s0 := Idle(db, m, n, log);
    var s1 := ReservedAt(db, d, 0, m, n, log);
    var s2 := ReservedAt(db, d, |d.items|, m, n, log);
    var s3 := One(db, Inserting(db, d, CreateReady(m, n)), m + 1, n + 1, log);
    var s4 := Idle(Created(db, m, n, d), m + 1, n + 1, log + [Create(m, n, d)]);
    BeginsCreate(env, db, d, m, n, log);
    ReservesAll(env, db, d, |d.items|, m, n, log);
    LeadsOn(env, s0, s1, s2);
    InsertsAll(env, db, d, m, n, log);
    LeadsOn(env, s0, s2, s3);
    OneCommits(env, db, Inserting(db, d, CreateReady(m, n)), m + 1, n + 1, log);
    CreateMerges(db, d, m, n);
    LeadsOn(env, s0, s3, s4);
  }

  // ---------------------------------------------------------------- a finalise

  predicate OnFile(db: Db, pid: nat) {
    && pid in db.payments && db.payments[pid].order in db.orders && db.payments[pid].order in db.items
    && Coupled(db.payments[pid], db.orders[db.payments[pid].order])
  }

  function AtPhase(db: Db, pid: nat, o: Outcome, ph: FinalisePhase): Txn
    requires OnFile(db, pid)
  {
    Finalising(pid, db.payments[pid].order, o, ph, FinaliseWrites(db, pid, db.payments[pid].order, o, ph))
  }

  lemma BeginsFinalise(env: Env, db: Db, pid: nat, o: Outcome, m: nat, n: nat, log: seq<Entry>)
    requires OnFile(db, pid)
    ensures Leads(env, Idle(db, m, n, log),
                  One(db, Finalising(pid, db.payments[pid].order, o, Guard, NoWrites), m, n, log))
  {
    LeadsStep(env, Idle(db, m, n, log), BeginFinalise(0, pid, o));
  }

  lemma GuardPasses(env: Env, db: Db, pid: nat, o: Outcome, m: nat, n: nat, log: seq<Entry>)
    requires OnFile(db, pid) && IsPending(db, pid)
    ensures Leads(env, Idle(db, m, n, log),
                  One(db, AtPhase(db, pid, o, if o.Charged? then FinaliseReady else SelectItems), m, n, log))
  {
    var x0 := Finalising(pid, db.payments[pid].order, o, Guard, NoWrites);
    var x1, x2 := AtPhase(db, pid, o, UpdateOrder),
        AtPhase(db, pid, o, if o.Charged? then FinaliseReady else SelectItems);
    BeginsFinalise(env, db, pid, o, m, n, log);
    OneSteps(env, db, x0, m, n, log, [], x1);
    LeadsOn(env, Idle(db, m, n, log), One(db, x0, m, n, log), One(db, x1, m, n, log));
    OneSteps(env, db, x1, m, n, log, [], x2);
    LeadsOn(env, Idle(db, m, n, log), One(db, x1, m, n, log), One(db, x2, m, n, log));
  }

  /** The system once i of the scanned lines are back in stock. */
  function RestockedAt(db: Db, pid: nat, scan: seq<Item>, i: nat, m: nat, n: nat, log: seq<Entry>): System
    requires OnFile(db, pid)
  {
    One(db, AtPhase(db, pid, Declined, AfterRestock(scan, i)), m, n, log)
  }

  lemma RestocksOne(env: Env, db: Db, pid: nat, scan: seq<Item>, i: nat, m: nat, n: nat, log: seq<Entry>)
    requires OnFile(db, pid) && multiset(scan) == multiset(db.items[db.payments[pid].order]) && i < |scan|
    ensures Leads(env, RestockedAt(db, pid, scan, i, m, n, log), RestockedAt(db, pid, scan, i + 1, m, n, log))
  {
    var x := AtPhase(db, pid, Declined, Restocking(scan, i));
    RestockNext(db, pid, x.order, Declined, scan, i, x.writes, []);
    OneSteps(env, db, x, m, n, log, [], AtPhase(db, pid, Declined, AfterRestock(scan, i + 1)));
  }

  lemma {:induction false} RestocksAll(env: Env, db: Db, pid: nat, scan: seq<Item>, i: nat, m: nat, n: nat,
                                       log: seq<Entry>)
    requires OnFile(db, pid) && multiset(scan) == multiset(db.items[db.payments[pid].order]) && i <= |scan|
    ensures Leads(env, RestockedAt(db, pid, scan, 0, m, n, log), RestockedAt(db, pid, scan, i, m, n, log))
  {
    if i == 0 {
      LeadsSelf(env, RestockedAt(db, pid, scan, 0, m, n, log));
    } else {
      RestocksAll(env, db, pid, scan, i - 1, m, n, log);
      RestocksOne(env, db, pid, scan, i - 1, m, n, log);
      LeadsOn(env, RestockedAt(db, pid, scan, 0, m, n, log), RestockedAt(db, pid, scan, i - 1, m, n, log),
              RestockedAt(db, pid, scan, i, m, n, log));
    }
  }

  lemma SelectsItems(env: Env, db: Db, pid: nat, scan: seq<Item>, m: nat, n: nat, log: seq<Entry>)
    requires OnFile(db, pid) && multiset(scan) == multiset(db.items[db.payments[pid].order])
    requires env.sortedScans ==> Ascending(scan)
    ensures Leads(env, One(db, AtPhase(db, pid, Declined, SelectItems), m, n, log),
                  RestockedAt(db, pid, scan, 0, m, n, log))
  {
    AddedPartPermuted(db.stock, scan, db.items[db.payments[pid].order]);
    assert scan[..0] == [] && AddedPart(db.stock, []) == map[];
    OneSteps(env, db, AtPhase(db, pid, Declined, SelectItems), m, n, log, scan,
             AtPhase(db, pid, Declined, AfterRestock(scan, 0)));
  }

  lemma FinaliseGetsReady(env: Env, db: Db, pid: nat, o: Outcome, scan: seq<Item>, m: nat, n: nat, log: seq<Entry>)
    requires OnFile(db, pid) && IsPending(db, pid)
    requires multiset(scan) == multiset(db.items[db.payments[pid].order]) && (env.sortedScans ==> Ascending(scan))
    ensures Leads(env, Idle(db, m, n, log), One(db, AtPhase(db, pid, o, FinaliseReady), m, n, log))
  {
    GuardPasses(env, db, pid, o, m, n, log);
    if o.Declined? {
      var s0, s1 := Idle(db, m, n, log), One(db, AtPhase(db, pid, o, SelectItems), m, n, log);
      var s2, s3 := RestockedAt(db, pid, scan, 0, m, n, log), RestockedAt(db, pid, scan, |scan|, m, n, log);
      SelectsItems(env, db, pid, scan, m, n, log);
      LeadsOn(env, s0, s1, s2);
      RestocksAll(env, db, pid, scan, |scan|, m, n, log);
      LeadsOn(env, s0, s2, s3);
    }
  }

  /** A finalise of a pending payment, run alone, commits with exactly the single step's rows. */
  lemma FinaliseRunsAlone(env: Env, db: Db, pid: nat, o: Outcome, scan: seq<Item>, m: nat, n: nat, log: seq<Entry>)
    requires OnFile(db, pid) && IsPending(db, pid)
    requires multiset(scan) == multiset(db.items[db.payments[pid].order]) && (env.sortedScans ==> Ascending(scan))
    ensures exists acts :: Exec(env, Idle(db, m, n, log), acts) ==
                           Some(Idle(Finalised(db, pid, o), m, n, log + [Finalise(pid, o)]))
  {
    var x := AtPhase(db, pid, o, FinaliseReady);
    FinaliseGetsReady(env, db, pid, o, scan, m, n, log);
    OneCommits(env, db, x, m, n, log);
    FinaliseMerges(db, pid, db.payments[pid].order, o);
    LeadsOn(env, Idle(db, m, n, log), One(db, x, m, n, log),
            Idle(Finalised(db, pid, o), m, n, log + [Finalise(pid, o)]));
  }
}
