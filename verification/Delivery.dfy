/**
 Workers and subscribers together. Recording a notification is one step of both protocols;
 everything else interleaves freely. Since an order is told at most once, no client's queue can
 fill up: nobody is evicted as slow, no replay is dropped, and a connected subscriber of a
 finalised order is queued its outcome.
 */
module Delivery {
  import opened Collections
  import opened Orders
  import opened Hub
  import opened Subscription
  import HubRuns
  import F = Fulfillment

  // ---------------------------------------------------------------- at most one row per order

  predicate OneRowEach(rows: seq<Row>) {
    forall i, j :: 0 <= i < j < |rows| ==> rows[i].order != rows[j].order
  }

  predicate ForOrder(rows: seq<Row>, ids: seq<nat>, order: int) {
    forall i :: 0 <= i < |ids| ==> ids[i] < |rows| && rows[ids[i]].order == order
  }

  /** Everything queued for a client, or to be replayed to it, is a row of its order. */
  predicate Mine(s: State, c: Client)
    requires c in s.h.chans
  {
    && c in s.conns
    && ForOrder(s.rows, s.h.chans[c].pushed, c.order)
    && ForOrder(s.rows, ReplayPlan(s, c), c.order)
    && |s.h.chans[c].buffer| <= |s.h.chans[c].pushed| + |s.h.chans[c].replayed|
  }

  predicate AllMine(s: State) {
    forall c :: c in s.h.chans ==> Mine(s, c)
  }

  lemma SameOrderSameRow(rows: seq<Row>, m: nat, n: nat)
    requires OneRowEach(rows) && m < |rows| && n < |rows| && rows[m].order == rows[n].order
    ensures m == n
  {
  }

  lemma AtMostOne(rows: seq<Row>, ids: seq<nat>, order: int)
    requires OneRowEach(rows) && ForOrder(rows, ids, order) && NoRepeats(ids)
    ensures |ids| <= 1
  {
    if ids != [] {
      SameOrderSameRow(rows, ids[0], ids[|ids| - 1]);
    }
  }

  /** A client holds at most one live and one replayed payload, so there is room for more. */
  lemma Roomy(s: State, c: Client)
    requires OneRowEach(s.rows) && c in s.h.chans && PushedOnce(s, c) && ReplayedOnce(s, c) && Mine(s, c)
    ensures HasRoom(s.h.chans[c])
  {
    AtMostOne(s.rows, s.h.chans[c].pushed, c.order);
    AtMostOne(s.rows, ReplayPlan(s, c), c.order);
  }

  lemma RowsKept(s: State, a: Action, ids: seq<nat>, order: int)
    requires Enabled(true, s, a) && ForOrder(s.rows, ids, order)
    ensures ForOrder(Apply(true, s, a).rows, ids, order)
  {
  }

  lemma ForOrderSnoc(rows: seq<Row>, ids: seq<nat>, n: nat, order: int)
    requires ForOrder(rows, ids, order) && n < |rows| && rows[n].order == order
    ensures ForOrder(rows, ids + [n], order)
  {
  }

  lemma IdsForMine(rows: seq<Row>, order: int)
    ensures ForOrder(rows, IdsFor(rows, order), order)
  {
    IdsForExact(rows, order);
    var ids := IdsFor(rows, order);
    forall i | 0 <= i < |ids| ensures ids[i] < |rows| && rows[ids[i]].order == order {
      assert ids[i] in ids;
    }
  }

  lemma ForOrderParts(rows: seq<Row>, sent: seq<nat>, todo: seq<nat>, order: int)
    requires todo != [] && ForOrder(rows, sent + todo, order)
    ensures ForOrder(rows, sent + todo[1..], order) && ForOrder(rows, sent + [todo[0]] + todo[1..], order)
  {
    assert sent + [todo[0]] + todo[1..] == sent + todo;
    var less := sent + todo[1..];
    forall i | 0 <= i < |less| ensures less[i] < |rows| && rows[less[i]].order == order {
      assert less[i] == (sent + todo)[if i < |sent| then i else i + 1];
    }
  }

  lemma PlanKept(s: State, a: Action, c: Client)
    requires Base(s) && Enabled(true, s, a) && c in s.h.chans && ReplayedOnce(s, c)
    requires ForOrder(s.rows, ReplayPlan(s, c), c.order)
    ensures c in Apply(true, s, a).h.chans && c in Apply(true, s, a).conns
    ensures ForOrder(s.rows, ReplayPlan(Apply(true, s, a), c), c.order)
  {
    StepQueue(s, a, c);
    if a == List(c, true) {
      IdsForMine(s.rows, c.order);
      assert ReplayPlan(Apply(true, s, a), c) == IdsFor(s.rows, c.order);
    } else if a == Replay(c) {
      ForOrderParts(s.rows, s.h.chans[c].replayed, s.conns[c].todo, c.order);
    } else {
      PlanSame(s, a, c);
    }
  }

  lemma PlanSame(s: State, a: Action, c: Client)
    requires Base(s) && Enabled(true, s, a) && c in s.h.chans && ReplayedOnce(s, c) && a != List(c, true)
               && a != Replay(c)
    requires c in Apply(true, s, a).h.chans && Apply(true, s, a).h.chans[c].replayed == s.h.chans[c].replayed
    ensures c in Apply(true, s, a).conns && ReplayPlan(Apply(true, s, a), c) == ReplayPlan(s, c)
  {
  }

  lemma StepMine(s: State, a: Action, c: Client)
    requires Base(s) && Enabled(true, s, a) && c in s.h.chans && ReplayedOnce(s, c) && Mine(s, c)
    ensures c in Apply(true, s, a).h.chans && Mine(Apply(true, s, a), c)
  {
    var s' := Apply(true, s, a);
    StepQueue(s, a, c);
    PlanKept(s, a, c);
    RowsKept(s, a, ReplayPlan(s', c), c.order);
    RowsKept(s, a, s.h.chans[c].pushed, c.order);
    if s'.h.chans[c].pushed != s.h.chans[c].pushed {
      ForOrderSnoc(s'.rows, s.h.chans[c].pushed, a.n, c.order);
    }
  }

  lemma StepAllMine(s: State, a: Action)
    requires Base(s) && AllSingle(s) && AllMine(s) && Enabled(true, s, a)
    ensures AllMine(Apply(true, s, a))
  {
    var s' := Apply(true, s, a);
    HubMoves(s, a);
    forall c | c in s'.h.chans ensures Mine(s', c) {
      if c in s.h.chans {
        StepMine(s, a, c);
      } else {
        assert s'.h.chans[c] == NewChan && s'.conns[c] == Opened;
      }
    }
  }

  // ---------------------------------------------------------------- nobody evicted, nothing dropped

  predicate NoneMissed(s: State) {
    forall c :: c in s.conns && s.conns[c].Replaying? ==> !s.conns[c].missed
  }

  predicate AllRoomy(s: State) {
    forall c :: c in s.h.chans ==> HasRoom(s.h.chans[c])
  }

  lemma StepNoneMissed(s: State, a: Action)
    requires NoneMissed(s) && AllRoomy(s) && Enabled(true, s, a)
    ensures NoneMissed(Apply(true, s, a))
  {
  }

  /** With room everywhere a client loses its registration only by leaving or by the hub's stop. */
  lemma StepStaysRegistered(s: State, a: Action, c: Client)
    requires Base(s) && AllRoomy(s) && Enabled(true, s, a) && IsRegistered(s.h, c) && a != Leave(c) && a != Stop
    ensures IsRegistered(Apply(true, s, a).h, c)
  {
    HubMoves(s, a);
    TidyClient(s.h, c, c.order);
    if HubEvent(s, a).Some? && !IsRegistered(Apply(true, s, a).h, c) {
      HubRuns.DropsBy(s.h, HubEvent(s, a).value, c);
    }
  }

  /** The hub is up, and client c, once it has joined, is registered. */
  predicate Connected(s: State, c: Client) {
    !s.h.stopped && (c in s.conns && !s.conns[c].Opened? ==> IsRegistered(s.h, c))
  }

  lemma StepConnected(s: State, a: Action, c: Client)
    requires Base(s) && AllRoomy(s) && Enabled(true, s, a) && Connected(s, c) && a != Leave(c) && a != Stop
    ensures Connected(Apply(true, s, a), c)
  {
    if IsRegistered(s.h, c) {
      StepStaysRegistered(s, a, c);
    }
    UpUnlessStopped(s, a);
  }

  lemma UpUnlessStopped(s: State, a: Action)
    requires Enabled(true, s, a) && !s.h.stopped && a != Stop
    ensures !Apply(true, s, a).h.stopped
  {
  }

  // ---------------------------------------------------------------- the joint protocol

  datatype Joint = Joint(world: F.World, sub: State)

  datatype Move = Work(job: F.Action) | Notice(event: Action)

  predicate Records(a: F.Action) {
    a.Notify? && a.recorded
  }

  /** A panic anywhere ends the process. Rows are only written by workers. */
  predicate MayMove(cfg: F.Config, j: Joint, m: Move) {
    && !j.sub.h.panicked
    && match m
       case Work(a) => F.Enabled(cfg, j.world, a)
       case Notice(a) => !a.Persist? && Enabled(true, j.sub, a)
  }

  function MoveOn(cfg: F.Config, j: Joint, m: Move): Joint
    requires MayMove(cfg, j, m)
  {
    match m
    case Work(a) =>
      Joint(F.Apply(cfg, j.world, a),
            if Records(a) then Apply(true, j.sub, Persist(j.world.workers[a.w].order)) else j.sub)
    case Notice(a) => j.(sub := Apply(true, j.sub, a))
  }

  function Run(cfg: F.Config, j: Joint, moves: seq<Move>): Option<Joint>
    decreases |moves|
  {
    if moves == [] then Some(j)
    else if MayMove(cfg, j, moves[0]) then Run(cfg, MoveOn(cfg, j, moves[0]), moves[1..])
    else None
  }

  function Begin(supply: map<int, int>): Joint {
    Joint(F.Init(supply), Start)
  }

  /** The rows on file are the notifications recorded, in order. */
  predicate RowsAreNotes(j: Joint) {
    && |j.sub.rows| == |j.world.notes|
    && forall i :: 0 <= i < |j.sub.rows| ==> j.sub.rows[i].order == j.world.notes[i].order
  }

  predicate SubInv(s: State) {
    Base(s) && AllCovered(s) && AllSingle(s) && AllMine(s) && NoneMissed(s) && AllFaithful(s.h)
  }

  predicate JointInv(cfg: F.Config, supply: map<int, int>, j: Joint) {
    F.Inv(cfg, supply, j.world) && SubInv(j.sub) && RowsAreNotes(j)
  }

  lemma ToldOnceOneRow(j: Joint)
    requires F.NotesOk(j.world) && RowsAreNotes(j)
    ensures OneRowEach(j.sub.rows)
  {
  }

  lemma InvRoomy(cfg: F.Config, supply: map<int, int>, j: Joint)
    requires JointInv(cfg, supply, j)
    ensures AllRoomy(j.sub)
  {
    ToldOnceOneRow(j);
    forall c | c in j.sub.h.chans ensures HasRoom(j.sub.h.chans[c]) {
      Roomy(j.sub, c);
    }
  }

  lemma StepSubInv(s: State, a: Action)
    requires SubInv(s) && AllRoomy(s) && Enabled(true, s, a) && !Apply(true, s, a).h.panicked
    ensures SubInv(Apply(true, s, a))
  {
    StepAllCovered(s, a);
    StepAllSingle(s, a);
    StepAllMine(s, a);
    StepNoneMissed(s, a);
    StepFaithfully(s, a);
  }

  /** What the subscription side sees of a move, if anything. */
  function Seen(cfg: F.Config, j: Joint, m: Move): Option<Action>
    requires MayMove(cfg, j, m)
  {
    match m
    case Work(a) => if Records(a) then Some(Persist(j.world.workers[a.w].order)) else None
    case Notice(a) => Some(a)
  }

  lemma SubMoves(cfg: F.Config, j: Joint, m: Move)
    requires MayMove(cfg, j, m)
    ensures match Seen(cfg, j, m)
            case Some(a) => Enabled(true, j.sub, a) && MoveOn(cfg, j, m).sub == Apply(true, j.sub, a)
            case None => MoveOn(cfg, j, m).sub == j.sub
  {
  }

  lemma StepRows(cfg: F.Config, j: Joint, m: Move)
    requires MayMove(cfg, j, m) && RowsAreNotes(j)
    ensures RowsAreNotes(MoveOn(cfg, j, m))
  {
    match m
    case Work(a) => WorkNotes(cfg, j.world, a);
    case Notice(a) =>
  }

  lemma WorkNotes(cfg: F.Config, s: F.World, a: F.Action)
    requires F.Enabled(cfg, s, a)
    ensures F.Apply(cfg, s, a).notes ==
            s.notes + if Records(a) then [F.Note(s.workers[a.w].order, s.workers[a.w].paid)] else []
  {
  }

  lemma StepJoint(cfg: F.Config, supply: map<int, int>, j: Joint, m: Move)
    requires JointInv(cfg, supply, j) && MayMove(cfg, j, m) && !MoveOn(cfg, j, m).sub.h.panicked
    ensures JointInv(cfg, supply, MoveOn(cfg, j, m))
  {
    if m.Work? {
      F.StepInv(cfg, supply, j.world, m.job);
    }
    StepRows(cfg, j, m);
    SubMoves(cfg, j, m);
    if Seen(cfg, j, m).Some? {
      InvRoomy(cfg, supply, j);
      StepSubInv(j.sub, Seen(cfg, j, m).value);
    }
  }

  predicate Stays(moves: seq<Move>, c: Client) {
    forall i :: 0 <= i < |moves| ==> moves[i] != Notice(Leave(c)) && moves[i] != Notice(Stop)
  }

  lemma StepJointConnected(cfg: F.Config, supply: map<int, int>, j: Joint, m: Move, c: Client)
    requires JointInv(cfg, supply, j) && MayMove(cfg, j, m) && Connected(j.sub, c)
    requires m != Notice(Leave(c)) && m != Notice(Stop)
    ensures Connected(MoveOn(cfg, j, m).sub, c)
  {
    SubMoves(cfg, j, m);
    if Seen(cfg, j, m).Some? {
      InvRoomy(cfg, supply, j);
      StepConnected(j.sub, Seen(cfg, j, m).value, c);
    }
  }

  lemma PanicIsLast(cfg: F.Config, j: Joint, moves: seq<Move>)
    requires j.sub.h.panicked && Run(cfg, j, moves).Some?
    ensures Run(cfg, j, moves).value == j
  {
  }

  lemma {:induction false} RunJoint(cfg: F.Config, supply: map<int, int>, j: Joint, moves: seq<Move>)
    requires JointInv(cfg, supply, j) && Run(cfg, j, moves).Some? && !Run(cfg, j, moves).value.sub.h.panicked
    ensures JointInv(cfg, supply, Run(cfg, j, moves).value)
    decreases |moves|
  {
    if moves != [] {
      AliveAfter(cfg, j, moves);
      StepJoint(cfg, supply, j, moves[0]);
      RunJoint(cfg, supply, MoveOn(cfg, j, moves[0]), moves[1..]);
    }
  }

  lemma AliveAfter(cfg: F.Config, j: Joint, moves: seq<Move>)
    requires moves != [] && Run(cfg, j, moves).Some? && !Run(cfg, j, moves).value.sub.h.panicked
    ensures !MoveOn(cfg, j, moves[0]).sub.h.panicked
  {
    var j' := MoveOn(cfg, j, moves[0]);
    if j'.sub.h.panicked {
      PanicIsLast(cfg, j', moves[1..]);
    }
  }

  lemma {:induction false} RunConnected(cfg: F.Config, supply: map<int, int>, j: Joint, moves: seq<Move>, c: Client)
    requires JointInv(cfg, supply, j) && Run(cfg, j, moves).Some? && !Run(cfg, j, moves).value.sub.h.panicked
    requires Stays(moves, c) && Connected(j.sub, c)
    ensures Connected(Run(cfg, j, moves).value.sub, c)
    decreases |moves|
  {
    if moves != [] {
      AliveAfter(cfg, j, moves);
      StepJoint(cfg, supply, j, moves[0]);
      StepJointConnected(cfg, supply, j, moves[0], c);
      RunConnected(cfg, supply, MoveOn(cfg, j, moves[0]), moves[1..], c);
    }
  }

  lemma BeginJoint(cfg: F.Config, supply: map<int, int>)
    requires forall p :: p in supply ==> supply[p] >= 0
    ensures JointInv(cfg, supply, Begin(supply))
  {
    F.InitInv(cfg, supply);
  }

  /** In every joint run each client's queue has room, and no replay finds it full. */
  lemma QueuesNeverFill(cfg: F.Config, supply: map<int, int>, moves: seq<Move>, c: Client)
    requires forall p :: p in supply ==> supply[p] >= 0
    requires Run(cfg, Begin(supply), moves).Some? && !Run(cfg, Begin(supply), moves).value.sub.h.panicked
    ensures var s := Run(cfg, Begin(supply), moves).value.sub;
            && (c in s.h.chans ==> HasRoom(s.h.chans[c]))
            && (c in s.conns && s.conns[c].Replaying? ==> !s.conns[c].missed)
  {
    BeginJoint(cfg, supply);
    RunJoint(cfg, supply, Begin(supply), moves);
    InvRoomy(cfg, supply, Run(cfg, Begin(supply), moves).value);
  }

  /** A client that does not leave stays registered from the moment it joins until the hub stops. */
  lemma NeverEvicted(cfg: F.Config, supply: map<int, int>, moves: seq<Move>, c: Client)
    requires forall p :: p in supply ==> supply[p] >= 0
    requires Run(cfg, Begin(supply), moves).Some? && !Run(cfg, Begin(supply), moves).value.sub.h.panicked
    requires Stays(moves, c)
    ensures var s := Run(cfg, Begin(supply), moves).value.sub;
            c in s.conns && !s.conns[c].Opened? ==> IsRegistered(s.h, c)
  {
    BeginJoint(cfg, supply);
    RunConnected(cfg, supply, Begin(supply), moves, c);
  }

  /** Row n is the order's one notification, and it says how the payment ended. */
  predicate IsOutcome(j: Joint, pid: nat, n: nat) {
    && pid in j.world.db.payments && n < |j.sub.rows| && n < |j.world.notes|
    && j.sub.rows[n].order == j.world.db.payments[pid].order == j.world.notes[n].order
    && j.world.db.payments[pid].status == (if j.world.notes[n].paid then Paid else Failed)
  }

  lemma OutcomeOnFile(j: Joint, pid: nat) returns (n: nat)
    requires F.NotesOk(j.world) && OnePaymentEach(j.world.db) && RowsAreNotes(j)
    requires var w := j.world;
             && pid in w.db.payments && !IsPending(w.db, pid)
             && !F.Telling(w, w.db.payments[pid].order) && w.db.payments[pid].order !in w.dropped
    ensures IsOutcome(j, pid, n)
  {
    assert F.FateOk(j.world, pid);
    var i :| 0 <= i < |j.world.notes| && j.world.notes[i].order == j.world.db.payments[pid].order;
    assert F.NoteTrue(j.world.db, j.world.notes[i]);
    n := i;
  }

  /**
   In every joint run, once an order is final and its notification recorded, a subscriber that
   has connected, whose list succeeded and replay ended, and that has not left, is queued that
   notification as soon as it has been pushed, and is never queued anything else.
   */
  lemma OutcomeReachesSubscriber(cfg: F.Config, supply: map<int, int>, moves: seq<Move>, c: Client, pid: nat)
      returns (n: nat)
    requires forall p :: p in supply ==> supply[p] >= 0
    requires Run(cfg, Begin(supply), moves).Some? && !Run(cfg, Begin(supply), moves).value.sub.h.panicked
    requires Stays(moves, c)
    requires var j := Run(cfg, Begin(supply), moves).value;
             && c in j.sub.conns && j.sub.conns[c].Replaying? && j.sub.conns[c].todo == []
             && pid in j.world.db.payments && j.world.db.payments[pid].order == c.order && !IsPending(j.world.db, pid)
             && !F.Telling(j.world, c.order) && c.order !in j.world.dropped
    ensures var j := Run(cfg, Begin(supply), moves).value;
            && IsOutcome(j, pid, n) && n < |j.sub.senders| && c in j.sub.h.chans
            && (j.sub.senders[n] != ToPush ==> Queued(j.sub.h, c, n))
            && (forall m :: Queued(j.sub.h, c, m) ==> m == n)
            && |j.sub.h.chans[c].received| + |j.sub.h.chans[c].buffer| <= 2
  {
    var j := Run(cfg, Begin(supply), moves).value;
    BeginJoint(cfg, supply);
    RunJoint(cfg, supply, Begin(supply), moves);
    RunConnected(cfg, supply, Begin(supply), moves, c);
    n := OutcomeOnFile(j, pid);
    OutcomeQueued(cfg, supply, j, c, n);
    AtMostTwo(j.sub, c);
  }

  lemma OutcomeQueued(cfg: F.Config, supply: map<int, int>, j: Joint, c: Client, n: nat)
    requires JointInv(cfg, supply, j) && Connected(j.sub, c)
    requires c in j.sub.conns && j.sub.conns[c].Replaying? && j.sub.conns[c].todo == []
    requires n < |j.sub.rows| && j.sub.rows[n].order == c.order
    ensures n < |j.sub.senders| && c in j.sub.h.chans && (j.sub.senders[n] != ToPush ==> Queued(j.sub.h, c, n))
    ensures forall m :: Queued(j.sub.h, c, m) ==> m == n
    ensures OneRowEach(j.sub.rows)
  {
    ToldOnceOneRow(j);
    assert Covered(j.sub, c, n);
    assert Mine(j.sub, c);
    RecordedIsQueued(j.sub.h, c, n);
    forall m | Queued(j.sub.h, c, m) ensures m == n {
      RecordedIsQueued(j.sub.h, c, m);
      QueuedIsMine(j.sub, c, m);
    }
  }

  lemma AtMostTwo(s: State, c: Client)
    requires OneRowEach(s.rows) && c in s.h.chans && PushedOnce(s, c) && ReplayedOnce(s, c) && Mine(s, c)
    requires Faithful(s.h.chans[c])
    ensures |s.h.chans[c].received| + |s.h.chans[c].buffer| <= 2
  {
    AtMostOne(s.rows, s.h.chans[c].pushed, c.order);
    AtMostOne(s.rows, ReplayPlan(s, c), c.order);
    RecordsTell(s.h.chans[c], 0);
  }

  lemma QueuedIsMine(s: State, c: Client, m: nat)
    requires c in s.h.chans && Mine(s, c) && Recorded(s.h, c, m)
    ensures m < |s.rows| && s.rows[m].order == c.order
  {
    if m in s.h.chans[c].replayed {
      var i :| 0 <= i < |s.h.chans[c].replayed| && s.h.chans[c].replayed[i] == m;
      assert ReplayPlan(s, c)[i] == m;
    }
  }

  // ---------------------------------------------------------------- each protocol's own runs are joint runs

  function Works(jobs: seq<F.Action>): seq<Move> {
    if jobs == [] then [] else [Work(jobs[0])] + Works(jobs[1..])
  }

  function Notices(events: seq<Action>): seq<Move> {
    if events == [] then [] else [Notice(events[0])] + Notices(events[1..])
  }

  lemma RunCons(cfg: F.Config, j: Joint, m: Move, rest: seq<Move>)
    requires MayMove(cfg, j, m)
    ensures Run(cfg, j, [m] + rest) == Run(cfg, MoveOn(cfg, j, m), rest)
  {
    assert ([m] + rest)[1..] == rest;
  }

  /** Workers can do beside the subscribers whatever they can do alone. */
  lemma {:induction false} WorkLifts(cfg: F.Config, world: F.World, sub: State, jobs: seq<F.Action>)
    requires F.Exec(cfg, world, jobs).Some? && !sub.h.panicked
    requires forall i :: 0 <= i < |jobs| ==> !Records(jobs[i])
    ensures Run(cfg, Joint(world, sub), Works(jobs)) == Some(Joint(F.Exec(cfg, world, jobs).value, sub))
    decreases |jobs|
  {
    if jobs != [] {
      RunCons(cfg, Joint(world, sub), Work(jobs[0]), Works(jobs[1..]));
      WorkLifts(cfg, F.Apply(cfg, world, jobs[0]), sub, jobs[1..]);
    }
  }

  /** Senders, hub and subscribers can do beside the workers whatever they can do alone, but write rows. */
  lemma {:induction false} NoticesLift(cfg: F.Config, world: F.World, sub: State, events: seq<Action>)
    requires Exec(true, sub, events).Some?
    requires forall i :: 0 <= i < |events| ==> !events[i].Persist?
    ensures Run(cfg, Joint(world, sub), Notices(events)) == Some(Joint(world, Exec(true, sub, events).value))
    decreases |events|
  {
    if events != [] {
      RunCons(cfg, Joint(world, sub), Notice(events[0]), Notices(events[1..]));
      NoticesLift(cfg, world, Apply(true, sub, events[0]), events[1..]);
    }
  }

  /** A worker that records its notification writes the row the senders go on with. */
  lemma RecordLifts(cfg: F.Config, j: Joint, w: nat)
    requires !j.sub.h.panicked && F.Enabled(cfg, j.world, F.Notify(w, true))
    ensures MayMove(cfg, j, Work(F.Notify(w, true)))
    ensures var j' := MoveOn(cfg, j, Work(F.Notify(w, true)));
            && j'.world == F.Apply(cfg, j.world, F.Notify(w, true))
            && j'.sub == Apply(true, j.sub, Persist(j.world.workers[w].order))
  {
  }
}
