/**
 The bounded job queue, its workers, the sweeper that refills it, and the server stopping
 them in order. HTTP handlers and the sweeper both call Process; a send on the closed jobs
 channel panics. The order of the stops is what keeps that from happening.
 */
module Shutdown {
  import opened Orders

  /** count and queueSize as configured; drainTimesOut: the HTTP drain may give up with handlers still running. */
  datatype Config = Config(count: nat, queueSize: nat, drainTimesOut: bool)

  datatype Worker = Idle | Working(id: int) | Exited

  datatype Sweeper = Sleeping | Enqueuing(ids: seq<int>) | SweeperDone

  /** What the server's stop loop does next. */
  datatype Stage = Serving | DrainHttp | StopSweeper | CloseQuit | CloseJobs | WaitWorkers | StopHub | StopStores | Down

  datatype State = State(
    queue: seq<int>, workers: seq<Worker>,
    accepted: multiset<int>, fulfilled: multiset<int>,
    arrived: seq<int>, started: seq<int>,  // the ids accepted, and those a worker has begun, in order
    quit: bool, closed: bool, panicked: bool,
    handlers: nat, sweeper: Sweeper, stage: Stage)

  /** Which case of the select in Process is taken. */
  datatype Case = Send | Handoff(w: nat) | QuitCase | Default

  datatype Action =
    | Request                            // an HTTP request arrives
    | HandlerProcess(id: int, pick: Case)
    | HandlerReturns
    | SweepLists(ids: seq<int>)
    | SweepProcess(pick: Case)
    | SweepEnds
    | SweeperExits
    | Take(w: nat)
    | Finish(w: nat)
    | WorkerExits(w: nat)
    | Advance                            // the stop loop moves on

  function Rank(g: Stage): nat {
    match g
    case Serving => 0
    case DrainHttp => 1
    case StopSweeper => 2
    case CloseQuit => 3
    case CloseJobs => 4
    case WaitWorkers => 5
    case StopHub => 6
    case StopStores => 7
    case Down => 8
  }

  predicate AllExited(ws: seq<Worker>) {
    forall w :: 0 <= w < |ws| ==> ws[w].Exited?
  }

  // ---------------------------------------------------------------- steps

  /** Whether a case of the select is ready; the default runs only when neither the send nor quit is. */
  predicate Ready(c: Config, s: State, pick: Case) {
    match pick
    case Send => s.closed || |s.queue| < c.queueSize
    case Handoff(w) => !s.closed && s.queue == [] && w < |s.workers| && s.workers[w].Idle?
    case QuitCase => s.quit
    case Default => !s.closed && !s.quit && |s.queue| >= c.queueSize
  }

  function Process(s: State, id: int, pick: Case): State
    requires pick.Handoff? ==> pick.w < |s.workers|
  {
    match pick
    case Send =>
      if s.closed then s.(panicked := true)
      else s.(queue := s.queue + [id], accepted := s.accepted + multiset{id}, arrived := s.arrived + [id])
    case Handoff(w) =>
      s.(workers := s.workers[w := Working(id)], accepted := s.accepted + multiset{id},
         arrived := s.arrived + [id], started := s.started + [id])
    case _ => s  // left pending for the sweeper
  }

  predicate MayAdvance(c: Config, s: State) {
    match s.stage
    case DrainHttp => s.handlers == 0 || c.drainTimesOut
    case StopSweeper => s.sweeper.SweeperDone?
    case WaitWorkers => AllExited(s.workers)
    case Down => false
    case _ => true
  }

  predicate Enabled(c: Config, s: State, a: Action) {
    && !s.panicked
    && match a
       case Request => s.stage == Serving
       case HandlerProcess(_, pick) => s.handlers > 0 && Ready(c, s, pick)
       case HandlerReturns => s.handlers > 0
       case SweepLists(_) => s.sweeper.Sleeping?
       case SweepProcess(pick) => s.sweeper.Enqueuing? && s.sweeper.ids != [] && Ready(c, s, pick)
       case SweepEnds => s.sweeper == Enqueuing([])
       case SweeperExits => s.sweeper.Sleeping? && Rank(s.stage) >= 2
       case Take(w) => w < |s.workers| && s.workers[w].Idle? && s.queue != []
       case Finish(w) => w < |s.workers| && s.workers[w].Working?
       case WorkerExits(w) => w < |s.workers| && s.workers[w].Idle? && s.closed && s.queue == []
       case Advance => MayAdvance(c, s)
  }

  function Next(g: Stage): Stage {
    match g
    case Serving => DrainHttp
    case DrainHttp => StopSweeper
    case StopSweeper => CloseQuit
    case CloseQuit => CloseJobs
    case CloseJobs => WaitWorkers
    case WaitWorkers => StopHub
    case StopHub => StopStores
    case _ => Down
  }

  function Apply(c: Config, s: State, a: Action): State
    requires Enabled(c, s, a)
  {
    match a
    case Request => s.(handlers := s.handlers + 1)
    case HandlerProcess(id, pick) => Process(s, id, pick)
    case HandlerReturns => s.(handlers := s.handlers - 1)
    case SweepLists(ids) => s.(sweeper := Enqueuing(ids))
    case SweepProcess(pick) => Process(s, s.sweeper.ids[0], pick).(sweeper := Enqueuing(s.sweeper.ids[1..]))
    case SweepEnds => s.(sweeper := Sleeping)
    case SweeperExits => s.(sweeper := SweeperDone)
    case Take(w) =>
      s.(queue := s.queue[1..], workers := s.workers[w := Working(s.queue[0])], started := s.started + [s.queue[0]])
    case Finish(w) => s.(workers := s.workers[w := Idle], fulfilled := s.fulfilled + multiset{s.workers[w].id})
    case WorkerExits(w) => s.(workers := s.workers[w := Exited])
    case Advance =>
      s.(stage := Next(s.stage), quit := s.quit || s.stage == CloseQuit, closed := s.closed || s.stage == CloseJobs)
  }

  function Exec(c: Config, s: State, acts: seq<Action>): Option<State>
    decreases |acts|
  {
    if acts == [] then Some(s)
    else if Enabled(c, s, acts[0]) then Exec(c, Apply(c, s, acts[0]), acts[1..])
    else None
  }

  function Init(c: Config): State {
    State([], seq(c.count, _ => Idle), multiset{}, multiset{}, [], [], false, false, false, 0, Sleeping, Serving)
  }

  ghost predicate Reaches(c: Config, s: State) {
    exists acts :: Exec(c, Init(c), acts) == Some(s)
  }

  // ---------------------------------------------------------------- nothing accepted is lost or duplicated

  function InHand(w: Worker, id: int): nat {
    if w == Working(id) then 1 else 0
  }

  /** How many workers are on this id. */
  function InFlight(ws: seq<Worker>, id: int): nat {
    if ws == [] then 0 else InFlight(ws[..|ws| - 1], id) + InHand(ws[|ws| - 1], id)
  }

  lemma {:induction false} InFlightUpdate(ws: seq<Worker>, w: nat, x: Worker, id: int)
    requires w < |ws|
    ensures InFlight(ws[w := x], id) + InHand(ws[w], id) == InFlight(ws, id) + InHand(x, id)
  {
    var n := |ws| - 1;
    if w == n {
      assert ws[w := x][..n] == ws[..n];
    } else {
      assert ws[w := x][..n] == ws[..n][w := x];
      InFlightUpdate(ws[..n], w, x, id);
    }
  }

  lemma {:induction false} NoneInFlight(ws: seq<Worker>, id: int)
    requires forall w :: 0 <= w < |ws| ==> !ws[w].Working?
    ensures InFlight(ws, id) == 0
  {
    if ws != [] {
      NoneInFlight(ws[..|ws| - 1], id);
    }
  }

  predicate BalancedFor(s: State, id: int) {
    s.accepted[id] == multiset(s.queue)[id] + InFlight(s.workers, id) + s.fulfilled[id]
  }

  predicate Fits(c: Config, s: State) {
    |s.queue| <= c.queueSize && |s.workers| == c.count
  }

  ghost predicate Balanced(c: Config, s: State) {
    Fits(c, s) && forall id :: BalancedFor(s, id)
  }

  lemma StepFits(c: Config, s: State, a: Action)
    requires Fits(c, s) && Enabled(c, s, a)
    ensures Fits(c, Apply(c, s, a))
  {
  }

  lemma ProcessBalanced(c: Config, s: State, x: int, pick: Case, id: int)
    requires BalancedFor(s, id) && Ready(c, s, pick)
    ensures BalancedFor(Process(s, x, pick), id)
  {
    if pick.Handoff? {
      InFlightUpdate(s.workers, pick.w, Working(x), id);
    }
  }

  lemma StepBalancedFor(c: Config, s: State, a: Action, id: int)
    requires BalancedFor(s, id) && Enabled(c, s, a)
    ensures BalancedFor(Apply(c, s, a), id)
  {
    match a
    case HandlerProcess(x, pick) => ProcessBalanced(c, s, x, pick, id);
    case SweepProcess(pick) => ProcessBalanced(c, s, s.sweeper.ids[0], pick, id);
    case Take(w) =>
      InFlightUpdate(s.workers, w, Working(s.queue[0]), id);
      assert s.queue == [s.queue[0]] + s.queue[1..];
    case Finish(w) => InFlightUpdate(s.workers, w, Idle, id);
    case WorkerExits(w) => InFlightUpdate(s.workers, w, Exited, id);
    case _ =>
  }

  lemma StepBalanced(c: Config, s: State, a: Action)
    requires Balanced(c, s) && Enabled(c, s, a)
    ensures Balanced(c, Apply(c, s, a))
  {
    StepFits(c, s, a);
    var s' := Apply(c, s, a);
    forall id ensures BalancedFor(s', id) {
      assert BalancedFor(s, id);
      StepBalancedFor(c, s, a, id);
    }
  }

  /** Jobs are begun in the order they were accepted. */
  predicate InOrder(s: State) {
    s.started + s.queue == s.arrived && multiset(s.arrived) == s.accepted
  }

  lemma ProcessInOrder(c: Config, s: State, id: int, pick: Case)
    requires InOrder(s) && Ready(c, s, pick)
    ensures InOrder(Process(s, id, pick))
  {
    assert s.started + (s.queue + [id]) == (s.started + s.queue) + [id];
    assert s.queue == [] ==> s.started + [id] + s.queue == s.started + s.queue + [id];
  }

  lemma StepInOrder(c: Config, s: State, a: Action)
    requires InOrder(s) && Enabled(c, s, a)
    ensures InOrder(Apply(c, s, a))
  {
    match a
    case HandlerProcess(id, pick) => ProcessInOrder(c, s, id, pick);
    case SweepProcess(pick) => ProcessInOrder(c, s, s.sweeper.ids[0], pick);
    case Take(w) => assert s.started + [s.queue[0]] + s.queue[1..] == s.started + s.queue;
    case _ =>
  }

  /**
   What becomes of an offered id: it is accepted at the back of the queue or by an idle worker, it
   hits the closed channel, or nothing happens, and the last only if the queue is full or the pool is
   stopping.
   */
  lemma OfferedFate(c: Config, s: State, id: int, pick: Case)
    requires Ready(c, s, pick) && !s.panicked
    ensures var s' := Process(s, id, pick);
            || (s' == s && (s.quit || |s.queue| >= c.queueSize))
            || (s.closed && s'.panicked)
            || (!s.closed && !s'.panicked && s'.accepted == s.accepted + multiset{id} &&
                s'.queue == s.queue + [id] && s'.workers == s.workers && |s.queue| < c.queueSize)
            || (!s.closed && !s'.panicked && s'.accepted == s.accepted + multiset{id} &&
                s'.queue == s.queue == [] && exists w :: 0 <= w < |s.workers| && s.workers[w] == Idle &&
                                                         s'.workers == s.workers[w := Working(id)])
    ensures !s.quit && !s.closed && |s.queue| < c.queueSize ==> id in Process(s, id, pick).accepted
  {
  }

  predicate Running(s: State) {
    !s.panicked && !s.quit && !s.closed
  }

  /** With room in the queue of a running pool, the sweeper's next id goes to its back. */
  lemma SweepOffers(c: Config, s: State)
    requires Running(s) && s.sweeper.Enqueuing? && s.sweeper.ids != [] && |s.queue| < c.queueSize
    ensures Enabled(c, s, SweepProcess(Send))
    ensures Apply(c, s, SweepProcess(Send)) ==
            s.(queue := s.queue + [s.sweeper.ids[0]], arrived := s.arrived + [s.sweeper.ids[0]],
               accepted := s.accepted + multiset{s.sweeper.ids[0]}, sweeper := Enqueuing(s.sweeper.ids[1..]))
  {
  }

  /** The state once the sweep has enqueued all of its ids. */
  function AllEnqueued(s: State): State
    requires s.sweeper.Enqueuing?
  {
    s.(queue := s.queue + s.sweeper.ids, arrived := s.arrived + s.sweeper.ids,
       accepted := s.accepted + multiset(s.sweeper.ids), sweeper := Sleeping)
  }

  lemma EnqueuedOneByOne(c: Config, s: State)
    requires Running(s) && s.sweeper.Enqueuing? && s.sweeper.ids != [] && |s.queue| < c.queueSize
    ensures Enabled(c, s, SweepProcess(Send)) && Apply(c, s, SweepProcess(Send)).sweeper.Enqueuing?
    ensures AllEnqueued(Apply(c, s, SweepProcess(Send))) == AllEnqueued(s)
  {
    SweepOffers(c, s);
    var ids, s' := s.sweeper.ids, Apply(c, s, SweepProcess(Send));
    assert ids == [ids[0]] + ids[1..];
    assert s'.accepted + multiset(ids[1..]) == s.accepted + multiset(ids) by {
      assert multiset(ids) == multiset{ids[0]} + multiset(ids[1..]);
    }
    assert s'.queue + ids[1..] == s.queue + ids && s'.arrived + ids[1..] == s.arrived + ids;
  }

  /** A sweep of a running pool with room for all its ids can enqueue them all, in order. */
  lemma {:induction false} SweepEnqueues(c: Config, s: State) returns (acts: seq<Action>)
    requires Running(s) && s.sweeper.Enqueuing? && |s.queue| + |s.sweeper.ids| <= c.queueSize
    ensures Exec(c, s, acts) ==
            Some(s.(queue := s.queue + s.sweeper.ids, arrived := s.arrived + s.sweeper.ids,
                    accepted := s.accepted + multiset(s.sweeper.ids), sweeper := Sleeping))
    decreases |s.sweeper.ids|
  {
    if s.sweeper.ids == [] {
      acts := [SweepEnds] + [];
      ExecCons(c, s, SweepEnds, []);
      assert s.queue + s.sweeper.ids == s.queue && s.arrived + s.sweeper.ids == s.arrived;
      assert s.accepted + multiset(s.sweeper.ids) == s.accepted;
      assert AllEnqueued(s) == Apply(c, s, SweepEnds);
    } else {
      EnqueuedOneByOne(c, s);
      var more := SweepEnqueues(c, Apply(c, s, SweepProcess(Send)));
      acts := [SweepProcess(Send)] + more;
      ExecCons(c, s, SweepProcess(Send), more);
      assert Exec(c, s, acts) == Some(AllEnqueued(s));
    }
  }

  /** A request's order offered to a running pool with room goes to the back of the queue. */
  lemma HandlerOffers(c: Config, s: State, id: int)
    requires Running(s) && s.handlers > 0 && |s.queue| < c.queueSize
    ensures Enabled(c, s, HandlerProcess(id, Send))
    ensures Apply(c, s, HandlerProcess(id, Send)) ==
            s.(queue := s.queue + [id], arrived := s.arrived + [id], accepted := s.accepted + multiset{id})
  {
  }

  // ---------------------------------------------------------------- the stop order

  predicate Flags(s: State) {
    && (s.quit <==> Rank(s.stage) >= 4)
    && (s.closed <==> Rank(s.stage) >= 5)
    && (Rank(s.stage) >= 3 ==> s.sweeper.SweeperDone?)
  }

  predicate Exits(s: State) {
    && (forall w :: 0 <= w < |s.workers| && s.workers[w].Exited? ==> s.closed && s.queue == [])
    && (Rank(s.stage) >= 6 ==> AllExited(s.workers))
  }

  /** Facts that hold at each stage, whatever the configuration. */
  predicate Staged(s: State) {
    Flags(s) && Exits(s)
  }

  lemma StepFlags(c: Config, s: State, a: Action)
    requires Flags(s) && Enabled(c, s, a)
    ensures Flags(Apply(c, s, a))
  {
  }

  lemma StepExits(c: Config, s: State, a: Action)
    requires Flags(s) && Exits(s) && Enabled(c, s, a)
    ensures Exits(Apply(c, s, a))
  {
  }

  lemma StepStaged(c: Config, s: State, a: Action)
    requires Staged(s) && Enabled(c, s, a)
    ensures Staged(Apply(c, s, a))
  {
    StepFlags(c, s, a);
    StepExits(c, s, a);
  }

  /** With the drain complete no handler outlives it, so no one sends on the closed channel. */
  predicate Drained(s: State) {
    !s.panicked && (Rank(s.stage) >= 2 ==> s.handlers == 0)
  }

  lemma StepDrained(c: Config, s: State, a: Action)
    requires !c.drainTimesOut && Drained(s) && Staged(s) && Enabled(c, s, a)
    ensures Drained(Apply(c, s, a))
  {
  }

  lemma {:induction false} RunKeeps(c: Config, s: State, acts: seq<Action>)
    requires Balanced(c, s) && InOrder(s) && Staged(s) && Exec(c, s, acts).Some?
    ensures Balanced(c, Exec(c, s, acts).value) && InOrder(Exec(c, s, acts).value) && Staged(Exec(c, s, acts).value)
    ensures !c.drainTimesOut && Drained(s) ==> Drained(Exec(c, s, acts).value)
    decreases |acts|
  {
    if acts != [] {
      StepBalanced(c, s, acts[0]);
      StepInOrder(c, s, acts[0]);
      StepStaged(c, s, acts[0]);
      if !c.drainTimesOut && Drained(s) {
        StepDrained(c, s, acts[0]);
      }
      RunKeeps(c, Apply(c, s, acts[0]), acts[1..]);
    }
  }

  lemma ReachesKeeps(c: Config, s: State)
    requires Reaches(c, s)
    ensures Balanced(c, s) && InOrder(s) && Staged(s) && (!c.drainTimesOut ==> Drained(s))
  {
    var acts :| Exec(c, Init(c), acts) == Some(s);
    forall id ensures BalancedFor(Init(c), id) {
      NoneInFlight(Init(c).workers, id);
    }
    RunKeeps(c, Init(c), acts);
  }

  /**
   In every reachable state the accepted ids are the queued, the ones in work and the fulfilled,
   and the queue is within its size.
   */
  lemma QueueConserved(c: Config, s: State, id: int)
    requires Reaches(c, s)
    ensures s.accepted[id] == multiset(s.queue)[id] + InFlight(s.workers, id) + s.fulfilled[id]
    ensures |s.queue| <= c.queueSize
    ensures s.started + s.queue == s.arrived && multiset(s.arrived) == s.accepted
  {
    ReachesKeeps(c, s);
    assert BalancedFor(s, id);
  }

  /** Once the hub is being stopped no worker is left to call Notify or the stores. */
  lemma NoWorkAfterPoolStops(c: Config, s: State, w: nat)
    requires Reaches(c, s) && Rank(s.stage) >= Rank(StopHub) && w < |s.workers|
    ensures s.workers[w] == Exited
  {
    ReachesKeeps(c, s);
  }

  /** No send on the closed channel, and when Stop has returned every accepted id has been fulfilled. */
  predicate Safe(s: State) {
    !s.panicked && (Rank(s.stage) >= Rank(StopHub) ==> s.accepted == s.fulfilled)
  }

  ghost predicate SafeShutdown(c: Config) {
    forall s :: Reaches(c, s) ==> Safe(s)
  }

  lemma OrderedStopIsSafe(c: Config, s: State)
    requires !c.drainTimesOut && (c.count >= 1 || c.queueSize == 0) && Reaches(c, s)
    ensures Safe(s)
  {
    ReachesKeeps(c, s);
    if Rank(s.stage) >= Rank(StopHub) {
      assert c.count >= 1 ==> s.workers[0].Exited?;
      forall id ensures s.accepted[id] == s.fulfilled[id] {
        assert BalancedFor(s, id);
        NoneInFlight(s.workers, id);
      }
    }
  }

  // ---------------------------------------------------------------- Stop returns

  function Load(w: Worker): nat {
    match w
    case Idle => 1
    case Working(_) => 2
    case Exited => 0
  }

  function Loads(ws: seq<Worker>): nat {
    if ws == [] then 0 else Loads(ws[..|ws| - 1]) + Load(ws[|ws| - 1])
  }

  /** The worker steps left once the jobs channel is closed. */
  function StepsLeft(s: State): nat {
    2 * |s.queue| + Loads(s.workers)
  }

  lemma {:induction false} LoadsUpdate(ws: seq<Worker>, w: nat, x: Worker)
    requires w < |ws|
    ensures Loads(ws[w := x]) + Load(ws[w]) == Loads(ws) + Load(x)
  {
    var n := |ws| - 1;
    if w == n {
      assert ws[w := x][..n] == ws[..n];
    } else {
      assert ws[w := x][..n] == ws[..n][w := x];
      LoadsUpdate(ws[..n], w, x);
    }
  }

  /** Stop is waiting for the workers, and nobody is left to send. */
  predicate Waiting(s: State) {
    s.stage == WaitWorkers && s.closed && s.handlers == 0 && s.sweeper.SweeperDone? && !s.panicked
  }

  /** While Stop waits only workers move, and each of their steps is one of those left. */
  lemma WaitingStep(c: Config, s: State, a: Action)
    requires Waiting(s) && Enabled(c, s, a) && a != Advance
    ensures Waiting(Apply(c, s, a)) && StepsLeft(Apply(c, s, a)) + 1 == StepsLeft(s)
  {
    match a
    case Take(w) => LoadsUpdate(s.workers, w, Working(s.queue[0]));
    case Finish(w) => LoadsUpdate(s.workers, w, Idle);
    case WorkerExits(w) => LoadsUpdate(s.workers, w, Exited);
    case _ =>
  }

  /** As long as a worker has not exited, some worker can take a step. */
  lemma SomeWorkerMoves(c: Config, s: State) returns (a: Action)
    requires Waiting(s) && !AllExited(s.workers)
    ensures Enabled(c, s, a) && a != Advance
  {
    var w: nat :| w < |s.workers| && !s.workers[w].Exited?;
    a := if s.workers[w].Working? then Finish(w) else if s.queue != [] then Take(w) else WorkerExits(w);
  }

  predicate NoAdvance(acts: seq<Action>) {
    forall i :: 0 <= i < |acts| ==> acts[i] != Advance
  }

  lemma {:induction false} WaitingRun(c: Config, s: State, acts: seq<Action>)
    requires Waiting(s) && Exec(c, s, acts).Some? && NoAdvance(acts)
    ensures Waiting(Exec(c, s, acts).value)
    ensures |acts| + StepsLeft(Exec(c, s, acts).value) == StepsLeft(s)
    decreases |acts|
  {
    if acts != [] {
      WaitingStep(c, s, acts[0]);
      WaitingRun(c, Apply(c, s, acts[0]), acts[1..]);
    }
  }

  /**
   With HTTP drained, Stop's wait ends in every run: each step made while it waits is one of a
   number fixed at the start, a step is possible until the last worker has exited, and then Stop returns.
   */
  lemma StopReturns(c: Config, s: State, acts: seq<Action>)
    requires !c.drainTimesOut && Reaches(c, s) && s.stage == WaitWorkers
    requires Exec(c, s, acts).Some? && NoAdvance(acts)
    ensures var e := Exec(c, s, acts).value;
            && |acts| + StepsLeft(e) == StepsLeft(s)
            && (AllExited(e.workers) <==> Enabled(c, e, Advance))
            && (!AllExited(e.workers) ==> exists a :: Enabled(c, e, a) && a != Advance)
  {
    ReachesKeeps(c, s);
    WaitingRun(c, s, acts);
    var e := Exec(c, s, acts).value;
    if !AllExited(e.workers) {
      var a := SomeWorkerMoves(c, e);
    }
  }

  // ---------------------------------------------------------------- the premises are needed

  lemma ExecCons(c: Config, s: State, a: Action, rest: seq<Action>)
    requires Enabled(c, s, a)
    ensures Exec(c, s, [a] + rest) == Exec(c, Apply(c, s, a), rest)
  {
    assert ([a] + rest)[1..] == rest;
  }

  lemma {:induction false} ReachesMore(c: Config, s: State, a: Action)
    requires Reaches(c, s) && Enabled(c, s, a)
    ensures Reaches(c, Apply(c, s, a))
  {
    var acts :| Exec(c, Init(c), acts) == Some(s);
    ExecSnoc(c, Init(c), acts, a);
  }

  lemma {:induction false} ExecSnoc(c: Config, s: State, acts: seq<Action>, a: Action)
    requires Exec(c, s, acts).Some? && Enabled(c, Exec(c, s, acts).value, a)
    ensures Exec(c, s, acts + [a]) == Some(Apply(c, Exec(c, s, acts).value, a))
    decreases |acts|
  {
    if acts == [] {
      assert acts + [a] == [a] + [];
      ExecCons(c, s, a, []);
    } else {
      assert (acts + [a])[1..] == acts[1..] + [a];
      ExecSnoc(c, Apply(c, s, acts[0]), acts[1..], a);
    }
  }

  lemma InitReaches(c: Config)
    ensures Reaches(c, Init(c))
  {
    assert Exec(c, Init(c), []) == Some(Init(c));
  }

  /** From the start of the drain to the closed channel, with the sweeper stopping on the way. */
  lemma StopsUntilClosed(c: Config, s: State) returns (e: State)
    requires Reaches(c, s) && !s.panicked && s.stage == Serving && s.sweeper == Sleeping
    requires s.handlers == 0 || c.drainTimesOut
    ensures Reaches(c, e) && e == s.(stage := WaitWorkers, sweeper := SweeperDone, quit := true, closed := true)
  {
    ReachesMore(c, s, Advance);
    var s1 := Apply(c, s, Advance);
    ReachesMore(c, s1, Advance);
    var s2 := Apply(c, s1, Advance);
    ReachesMore(c, s2, SweeperExits);
    var s3 := Apply(c, s2, SweeperExits);
    ReachesMore(c, s3, Advance);
    var s4 := Apply(c, s3, Advance);
    ReachesMore(c, s4, Advance);
    var s5 := Apply(c, s4, Advance);
    ReachesMore(c, s5, Advance);
    e := Apply(c, s5, Advance);
  }

  /** A handler that outlives the drain sends on the closed channel. */
  lemma TimedOutDrainPanics(c: Config)
    requires c.drainTimesOut
    ensures !SafeShutdown(c)
  {
    InitReaches(c);
    ReachesMore(c, Init(c), Request);
    var s := StopsUntilClosed(c, Apply(c, Init(c), Request));
    ReachesMore(c, s, HandlerProcess(1, Send));
    assert !Safe(Apply(c, s, HandlerProcess(1, Send)));
  }

  /** Without workers the queue is abandoned. */
  lemma NoWorkersLoseJobs(c: Config)
    requires c.count == 0 && c.queueSize >= 1
    ensures !SafeShutdown(c)
  {
    InitReaches(c);
    ReachesMore(c, Init(c), Request);
    var s1 := Apply(c, Init(c), Request);
    ReachesMore(c, s1, HandlerProcess(1, Send));
    var s2 := Apply(c, s1, HandlerProcess(1, Send));
    ReachesMore(c, s2, HandlerReturns);
    var s := StopsUntilClosed(c, Apply(c, s2, HandlerReturns));
    ReachesMore(c, s, Advance);
    assert 1 in s.accepted && 1 !in s.fulfilled;
    assert !Safe(Apply(c, s, Advance));
  }

  /**
   Shutdown is safe in every run exactly when HTTP always drains and there is a worker (or the
   queue can hold nothing).
   */
  lemma SafeShutdownIff(c: Config)
    ensures SafeShutdown(c) <==> !c.drainTimesOut && (c.count >= 1 || c.queueSize == 0)
  {
    if c.drainTimesOut {
      TimedOutDrainPanics(c);
    } else if c.count == 0 && c.queueSize >= 1 {
      NoWorkersLoseJobs(c);
    } else {
      forall s | Reaches(c, s) ensures Safe(s) {
        OrderedStopIsSafe(c, s);
      }
    }
  }
}
