/**
 Sending a notification (persist, push, mark) against connecting a subscriber (register,
 list, replay). Because a row is persisted before it is pushed and a client is registered
 before the rows are listed, a subscriber that stays registered misses nothing; with the
 list first, it can.
 */
module Subscription {
  import opened Collections
  import opened Orders
  import opened Hub
  import HubRuns

  datatype Status = NotePending | NoteSent | NoteFailed

  /** A notification row; its id is its position. */
  datatype Row = Row(order: int, status: Status)

  datatype Sender = ToPush | ToMark(delivered: bool) | SenderDone

  datatype Conn =
    | Opened
    | Joined                                        // registered, rows not listed yet
    | ListedFirst(todo: seq<nat>)                   // only when listing comes first
    | Replaying(todo: seq<nat>, missed: bool)       // missed: a replay found the buffer full
    | ListFailed

  datatype State = State(h: HubState, rows: seq<Row>, senders: seq<Sender>, conns: map<Client, Conn>)

  datatype Action =
    | Persist(order: int)
    | Push(n: nat, cut: bool)    // cut: the hub stopped before the verdict was read
    | Mark(n: nat, err: bool)
    | Open(c: Client)
    | Join(c: Client)
    | List(c: Client, ok: bool)
    | Replay(c: Client)
    | Receive(c: Client)
    | Leave(c: Client)
    | Stop

  /** The ids of an order's rows, oldest first. */
  function IdsFor(rows: seq<Row>, order: int): seq<nat> {
    if rows == [] then []
    else IdsFor(rows[..|rows| - 1], order) + (if rows[|rows| - 1].order == order then [|rows| - 1] else [])
  }

  predicate Enabled(registerFirst: bool, s: State, a: Action) {
    && !s.h.panicked
    && match a
       case Persist(_) => true
       case Push(n, _) => n < |s.senders| && n < |s.rows| && s.senders[n] == ToPush
       case Mark(n, _) => n < |s.senders| && n < |s.rows| && s.senders[n].ToMark?
       case Open(c) => c !in s.conns && c !in s.h.chans
       case Join(c) => c in s.conns && c in s.h.chans
           && (if registerFirst then s.conns[c].Opened? else s.conns[c].ListedFirst?)
       case List(c, _) => c in s.conns && (if registerFirst then s.conns[c].Joined? else s.conns[c].Opened?)
       case Replay(c) => c in s.conns && s.conns[c].Replaying? && s.conns[c].todo != [] && c in s.h.chans
       case Receive(c) => HubRuns.Enabled(s.h, HubRuns.Receive(c))
       case Leave(c) => HubRuns.Enabled(s.h, HubRuns.Unregister(c))
       case Stop => !s.h.stopped
  }

  function Apply(registerFirst: bool, s: State, a: Action): State
    requires Enabled(registerFirst, s, a)
  {
    match a
    case Persist(order) => s.(rows := s.rows + [Row(order, NotePending)], senders := s.senders + [ToPush])
    case Push(n, cut) =>
      if s.h.stopped then s.(senders := s.senders[n := ToMark(false)])
      else
        var o := s.rows[n].order;
        s.(h := HubRuns.Apply(s.h, HubRuns.Outbound(o, n)),
           senders := s.senders[n := ToMark(Reachable(s.h, o) && !cut)])
    case Mark(n, err) =>
      var status := if s.senders[n].delivered then NoteSent else NoteFailed;
      s.(rows := if err then s.rows else s.rows[n := s.rows[n].(status := status)],
         senders := s.senders[n := SenderDone])
    case Open(c) => s.(h := HubRuns.Apply(s.h, HubRuns.NewClient(c)), conns := s.conns[c := Opened])
    case Join(c) =>
      // A stopped hub ignores the registration.
      s.(h := if s.h.stopped then s.h else HubRuns.Apply(s.h, HubRuns.Register(c)),
         conns := s.conns[c := if registerFirst then Joined else Replaying(s.conns[c].todo, false)])
    case List(c, ok) =>
      s.(conns := s.conns[c := if !ok then ListFailed
                               else if registerFirst then Replaying(IdsFor(s.rows, c.order), false)
                               else ListedFirst(IdsFor(s.rows, c.order))])
    case Replay(c) =>
      var todo, ch := s.conns[c].todo, s.h.chans[c];
      s.(h := HubRuns.Apply(s.h, HubRuns.ClientSend(c, todo[0])),
         conns := s.conns[c := Replaying(todo[1..], s.conns[c].missed || !HasRoom(ch))])
    case Receive(c) => s.(h := HubRuns.Apply(s.h, HubRuns.Receive(c)))
    case Leave(c) => s.(h := HubRuns.Apply(s.h, HubRuns.Unregister(c)))
    case Stop => s.(h := HubRuns.Apply(s.h, HubRuns.Stop))
  }

  function Exec(registerFirst: bool, s: State, acts: seq<Action>): Option<State>
    decreases |acts|
  {
    if acts == [] then Some(s)
    else if Enabled(registerFirst, s, acts[0]) then Exec(registerFirst, Apply(registerFirst, s, acts[0]), acts[1..])
    else None
  }

  const Start := State(Empty, [], [], map[])

  /** Row n is waiting on client c's channel, or its write pump has received it. */
  predicate Queued(h: HubState, c: Client, n: nat)
    requires c in h.chans
  {
    n in h.chans[c].received + h.chans[c].buffer
  }

  /** The record says row n was put on client c's channel, live or by replay. */
  predicate Recorded(h: HubState, c: Client, n: nat)
    requires c in h.chans
  {
    n in h.chans[c].pushed || n in h.chans[c].replayed
  }

  lemma RecordedIsQueued(h: HubState, c: Client, n: nat)
    requires c in h.chans && Faithful(h.chans[c])
    ensures Queued(h, c, n) <==> Recorded(h, c, n)
  {
    RecordsTell(h.chans[c], n);
  }

  /** A subscriber that is still registered, whose replay ran to its end and dropped nothing. */
  predicate CaughtUp(s: State, c: Client) {
    c in s.conns && c in s.h.chans && IsRegistered(s.h, c) && s.conns[c] == Replaying([], false)
  }

  /** Such a subscriber has been queued every row of its order, but for those not pushed yet. */
  ghost predicate NothingMissed(s: State) {
    forall c, n :: CaughtUp(s, c) && 0 <= n < |s.rows| && n < |s.senders| &&
                   s.rows[n].order == c.order && s.senders[n] != ToPush ==>
      Queued(s.h, c, n)
  }

  ghost predicate NeverLoses(registerFirst: bool) {
    forall acts :: Exec(registerFirst, Start, acts).Some? && !Exec(registerFirst, Start, acts).value.h.panicked ==>
      NothingMissed(Exec(registerFirst, Start, acts).value)
  }

  // ---------------------------------------------------------------- registering first

  predicate Base(s: State) {
    && Tidy(s.h) && |s.rows| == |s.senders|
    && (forall c :: c in s.conns ==> c in s.h.chans)
    && (forall c :: c in s.conns && s.conns[c].Opened? ==>
        s.h.chans[c].open && !IsRegistered(s.h, c) && s.h.chans[c].pushed == [])
  }

  /** Row n is accounted for at client c: not pushed yet, queued, or still to be listed or replayed. */
  predicate Covered(s: State, c: Client, n: nat)
    requires c in s.conns && c in s.h.chans && n < |s.senders|
  {
    || s.senders[n] == ToPush
    || Recorded(s.h, c, n)
    || s.conns[c].Joined?
    || s.conns[c].ListFailed?
    || (s.conns[c].Replaying? && (s.conns[c].missed || n in s.conns[c].todo))
  }

  predicate AllCovered(s: State)
    requires Base(s)
  {
    forall c, n :: c in s.conns && IsRegistered(s.h, c) && 0 <= n < |s.rows| && s.rows[n].order == c.order ==>
        Covered(s, c, n)
  }

  lemma {:induction false} IdsForExact(rows: seq<Row>, order: int)
    ensures forall n: nat :: n in IdsFor(rows, order) <==> n < |rows| && rows[n].order == order
  {
    if rows != [] {
      IdsForExact(rows[..|rows| - 1], order);
    }
  }

  /** The hub event behind a step, if there is one. */
  function HubEvent(s: State, a: Action): Option<HubRuns.Event>
    requires Enabled(true, s, a)
  {
    match a
    case Push(n, _) => if s.h.stopped then None else Some(HubRuns.Outbound(s.rows[n].order, n))
    case Open(c) => Some(HubRuns.NewClient(c))
    case Join(c) => if s.h.stopped then None else Some(HubRuns.Register(c))
    case Replay(c) => Some(HubRuns.ClientSend(c, s.conns[c].todo[0]))
    case Receive(c) => Some(HubRuns.Receive(c))
    case Leave(c) => Some(HubRuns.Unregister(c))
    case Stop => Some(HubRuns.Stop)
    case _ => None
  }

  lemma HubMoves(s: State, a: Action)
    requires Enabled(true, s, a)
    ensures HubEvent(s, a).Some? ==>
              HubRuns.Enabled(s.h, HubEvent(s, a).value)
                  && Apply(true, s, a).h == HubRuns.Apply(s.h, HubEvent(s, a).value)
    ensures HubEvent(s, a).None? ==> Apply(true, s, a).h == s.h
  {
  }

  /** What a hub event leaves of one client: nothing queued is ever taken back, and only a registration registers. */
  lemma EventEffect(h: HubState, e: HubRuns.Event, c: Client)
    requires Tidy(h) && HubRuns.Enabled(h, e) && c in h.chans
    ensures c in HubRuns.Apply(h, e).chans
    ensures h.chans[c].pushed <= HubRuns.Apply(h, e).chans[c].pushed
              && h.chans[c].replayed <= HubRuns.Apply(h, e).chans[c].replayed
    ensures IsRegistered(HubRuns.Apply(h, e), c) ==> IsRegistered(h, c) || e == HubRuns.Register(c)
    ensures e.Outbound? && e.order == c.order && IsRegistered(HubRuns.Apply(h, e), c) ==>
              e.p in HubRuns.Apply(h, e).chans[c].pushed
    ensures !IsRegistered(h, c) && e != HubRuns.Register(c) ==>
              HubRuns.Apply(h, e).chans[c].open == h.chans[c].open
                  && HubRuns.Apply(h, e).chans[c].pushed == h.chans[c].pushed
  {
    if e.Outbound? {
      HubRuns.OutboundEffect(h, e.order, e.p, c);
    } else {
      HubRuns.QuietEffect(h, e, c);
    }
  }

  /** The same for a whole step. */
  lemma StepEffect(s: State, a: Action, c: Client)
    requires Tidy(s.h) && Enabled(true, s, a) && c in s.h.chans
    ensures var h, h' := s.h, Apply(true, s, a).h;
            && c in h'.chans
            && h.chans[c].pushed <= h'.chans[c].pushed && h.chans[c].replayed <= h'.chans[c].replayed
            && (IsRegistered(h', c) ==> IsRegistered(h, c) || a == Join(c))
            && (a.Push? && s.rows[a.n].order == c.order && IsRegistered(h', c) ==> a.n in h'.chans[c].pushed)
            && (!IsRegistered(h, c) && a != Join(c) ==>
                h'.chans[c].open == h.chans[c].open && h'.chans[c].pushed == h.chans[c].pushed)
  {
    HubMoves(s, a);
    if HubEvent(s, a).Some? {
      EventEffect(s.h, HubEvent(s, a).value, c);
    }
  }

  predicate StillOpened(s: State, c: Client)
    requires c in s.conns
  {
    c in s.h.chans && (s.conns[c].Opened? ==> s.h.chans[c].open && !IsRegistered(s.h, c) && s.h.chans[c].pushed == [])
  }

  lemma StepOpened(s: State, a: Action, c: Client)
    requires Tidy(s.h) && Enabled(true, s, a) && c in s.conns && StillOpened(s, c)
    ensures c in Apply(true, s, a).conns && StillOpened(Apply(true, s, a), c)
  {
    StepEffect(s, a, c);
  }

  lemma StepHubTidy(s: State, a: Action)
    requires Base(s) && Enabled(true, s, a) && !Apply(true, s, a).h.panicked
    ensures Tidy(Apply(true, s, a).h)
  {
    HubMoves(s, a);
    if HubEvent(s, a).Some? {
      HubRuns.StepTidy(s.h, HubEvent(s, a).value);
    }
  }

  lemma StepBase(s: State, a: Action)
    requires Base(s) && Enabled(true, s, a) && !Apply(true, s, a).h.panicked
    ensures Base(Apply(true, s, a))
  {
    var s' := Apply(true, s, a);
    StepHubTidy(s, a);
    forall c | c in s'.conns ensures StillOpened(s', c) {
      if c in s.conns {
        StepOpened(s, a, c);
      }
    }
  }

  lemma StepFaithfully(s: State, a: Action)
    requires Base(s) && AllFaithful(s.h) && Enabled(true, s, a)
    ensures AllFaithful(Apply(true, s, a).h)
  {
    HubMoves(s, a);
    if HubEvent(s, a).Some? {
      forall c | c in Apply(true, s, a).h.chans ensures Faithful(Apply(true, s, a).h.chans[c]) {
        HubRuns.StepFaithful(s.h, HubEvent(s, a).value, c);
      }
    }
  }

  lemma StepCovered(s: State, a: Action, c: Client, n: nat)
    requires Base(s) && AllCovered(s) && Enabled(true, s, a) && Base(Apply(true, s, a))
    requires var s' := Apply(true, s, a);
             c in s'.conns && IsRegistered(s'.h, c) && n < |s'.rows| && s'.rows[n].order == c.order
    ensures Covered(Apply(true, s, a), c, n)
  {
    var s' := Apply(true, s, a);
    if c in s.conns && n < |s.rows| {
      StepEffect(s, a, c);
      if IsRegistered(s.h, c) {
        assert Covered(s, c, n);
      }
      if a == List(c, true) {
        IdsForExact(s.rows, c.order);
      }
    }
  }

  lemma StepAllCovered(s: State, a: Action)
    requires Base(s) && AllCovered(s) && Enabled(true, s, a) && !Apply(true, s, a).h.panicked
    ensures Base(Apply(true, s, a)) && AllCovered(Apply(true, s, a))
  {
    var s' := Apply(true, s, a);
    StepBase(s, a);
    forall c, n: nat | c in s'.conns && IsRegistered(s'.h, c) && n < |s'.rows| && s'.rows[n].order == c.order
      ensures Covered(s', c, n)
    {
      StepCovered(s, a, c, n);
    }
  }

  lemma PanicEnds(s: State, acts: seq<Action>)
    requires s.h.panicked && Exec(true, s, acts).Some?
    ensures Exec(true, s, acts).value == s
  {
  }

  lemma {:induction false} RunCovered(s: State, acts: seq<Action>)
    requires Base(s) && AllCovered(s) && AllFaithful(s.h)
    requires Exec(true, s, acts).Some? && !Exec(true, s, acts).value.h.panicked
    ensures Base(Exec(true, s, acts).value) && AllCovered(Exec(true, s, acts).value)
    ensures AllFaithful(Exec(true, s, acts).value.h)
    decreases |acts|
  {
    if acts != [] {
      var s' := Apply(true, s, acts[0]);
      if s'.h.panicked {
        PanicEnds(s', acts[1..]);
      }
      StepAllCovered(s, acts[0]);
      StepFaithfully(s, acts[0]);
      RunCovered(s', acts[1..]);
    }
  }

  lemma RegisterFirstNeverLoses()
    ensures NeverLoses(true)
  {
    forall acts | Exec(true, Start, acts).Some? && !Exec(true, Start, acts).value.h.panicked
      ensures NothingMissed(Exec(true, Start, acts).value)
    {
      RunCovered(Start, acts);
      CoveredIsQueued(Exec(true, Start, acts).value);
    }
  }

  lemma CoveredIsQueued(s: State)
    requires Base(s) && AllCovered(s) && AllFaithful(s.h)
    ensures NothingMissed(s)
  {
    forall c, n | CaughtUp(s, c) && 0 <= n < |s.rows| && n < |s.senders| &&
                  s.rows[n].order == c.order && s.senders[n] != ToPush
      ensures Queued(s.h, c, n)
    {
      assert Covered(s, c, n);
      RecordedIsQueued(s.h, c, n);
    }
  }

  // ---------------------------------------------------------------- listing first

  lemma ExecCons(first: bool, s: State, a: Action, rest: seq<Action>)
    requires Enabled(first, s, a)
    ensures Exec(first, s, [a] + rest) == Exec(first, Apply(first, s, a), rest)
  {
    assert ([a] + rest)[1..] == rest;
  }

  /** List, then a notification is persisted and pushed to nobody, then register: it is lost. */
  lemma ListFirstLoses(c: Client)
    ensures !NeverLoses(false)
  {
    var a4 := [Join(c)] + [];
    var a3 := [Push(0, false)] + a4;
    var a2 := [Persist(c.order)] + a3;
    var a1 := [List(c, true)] + a2;
    ExecCons(false, Start, Open(c), a1);
    var s1 := Apply(false, Start, Open(c));
    ExecCons(false, s1, List(c, true), a2);
    var s2 := Apply(false, s1, List(c, true));
    assert s2.conns[c] == ListedFirst([]);
    ExecCons(false, s2, Persist(c.order), a3);
    var s3 := Apply(false, s2, Persist(c.order));
    ExecCons(false, s3, Push(0, false), a4);
    var s4 := Apply(false, s3, Push(0, false));
    assert s4.h.chans[c] == NewChan && !s4.h.panicked && c.order !in s4.h.clients;
    ExecCons(false, s4, Join(c), []);
    var s5 := Apply(false, s4, Join(c));
    assert CaughtUp(s5, c) && s5.senders[0] != ToPush && !Queued(s5.h, c, 0);
    assert !NothingMissed(Exec(false, Start, [Open(c)] + a1).value);
  }

  /**
   A subscriber that stays registered and whose replay drops nothing misses no notification,
   exactly because it registers before it lists.
   */
  lemma NeverLosesIffRegisteredFirst(registerFirst: bool)
    ensures NeverLoses(registerFirst) <==> registerFirst
  {
    if registerFirst {
      RegisterFirstNeverLoses();
    } else {
      ListFirstLoses(Client(0, 0));
    }
  }

  // ---------------------------------------------------------------- twice at most, and marked truthfully

  /** What is on a client's queue by replay, and what is still to come. */
  function ReplayPlan(s: State, c: Client): seq<nat>
    requires c in s.conns && c in s.h.chans
  {
    s.h.chans[c].replayed + (if s.conns[c].Replaying? then s.conns[c].todo else [])
  }

  /** No row was pushed twice to this client, and none that is still waiting to be pushed. */
  predicate PushedOnce(s: State, c: Client)
    requires c in s.h.chans
  {
    && NoRepeats(s.h.chans[c].pushed)
    && (forall n :: n in s.h.chans[c].pushed ==> n < |s.senders| && s.senders[n] != ToPush)
  }

  predicate ReplayedOnce(s: State, c: Client)
    requires c in s.h.chans
  {
    && c in s.conns
    && NoRepeats(ReplayPlan(s, c))
    && (!s.conns[c].Replaying? ==> s.h.chans[c].replayed == [])
  }

  predicate PushedSomewhere(h: HubState, n: nat) {
    exists c :: c in h.chans && n in h.chans[c].pushed
  }

  predicate Truthful(s: State) {
    && |s.rows| == |s.senders|
    && forall n :: 0 <= n < |s.rows| && (s.senders[n] == ToMark(true) || s.rows[n].status == NoteSent) ==>
        PushedSomewhere(s.h, n)
  }

  /** A listing is oldest first. */
  lemma {:induction false} IdsForAscend(rows: seq<Row>, order: int)
    ensures forall i, j :: 0 <= i < j < |IdsFor(rows, order)| ==> IdsFor(rows, order)[i] < IdsFor(rows, order)[j]
  {
    if rows != [] {
      var front := rows[..|rows| - 1];
      IdsForAscend(front, order);
      IdsForExact(front, order);
      var ids := IdsFor(front, order);
      assert forall i :: 0 <= i < |ids| ==> ids[i] in ids;
    }
  }

  lemma {:induction false} IdsForOnce(rows: seq<Row>, order: int)
    ensures NoRepeats(IdsFor(rows, order))
  {
    if rows != [] {
      var front := rows[..|rows| - 1];
      IdsForOnce(front, order);
      IdsForExact(front, order);
      NoRepeatsSnoc(IdsFor(front, order), |front|);
    }
  }

  /** How one hub event changes what is on a client's queue: at most one payload, at the end. */
  lemma QueueGrowth(h: HubState, e: HubRuns.Event, c: Client)
    requires Tidy(h) && HubRuns.Enabled(h, e) && c in h.chans
    ensures c in HubRuns.Apply(h, e).chans
    ensures var ch, ch' := h.chans[c], HubRuns.Apply(h, e).chans[c];
            && (ch'.pushed == ch.pushed || (e.Outbound? && e.order == c.order && ch'.pushed == ch.pushed + [e.p]))
            && (ch'.replayed == ch.replayed || (e.ClientSend? && e.c == c && ch'.replayed == ch.replayed + [e.p]))
            && |ch'.buffer| + |ch.pushed| + |ch.replayed| <= |ch.buffer| + |ch'.pushed| + |ch'.replayed|
  {
    if e.Outbound? {
      HubRuns.OutboundEffect(h, e.order, e.p, c);
    } else {
      HubRuns.QuietEffect(h, e, c);
    }
  }

  /** The same for a whole step. */
  lemma StepQueue(s: State, a: Action, c: Client)
    requires Base(s) && Enabled(true, s, a) && c in s.h.chans
    ensures c in Apply(true, s, a).h.chans
    ensures var ch, ch' := s.h.chans[c], Apply(true, s, a).h.chans[c];
            && (ch'.pushed == ch.pushed || (a.Push? && s.rows[a.n].order == c.order && ch'.pushed == ch.pushed + [a.n]))
            && (ch'.replayed == ch.replayed || (a == Replay(c) && ch'.replayed == ch.replayed + [s.conns[c].todo[0]]))
            && |ch'.buffer| + |ch.pushed| + |ch.replayed| <= |ch.buffer| + |ch'.pushed| + |ch'.replayed|
  {
    HubMoves(s, a);
    if HubEvent(s, a).Some? {
      QueueGrowth(s.h, HubEvent(s, a).value, c);
    }
  }

  lemma StepPushedOnce(s: State, a: Action, c: Client)
    requires Base(s) && Enabled(true, s, a) && c in s.h.chans && PushedOnce(s, c)
    ensures c in Apply(true, s, a).h.chans && PushedOnce(Apply(true, s, a), c)
  {
    StepQueue(s, a, c);
    if a.Push? {
      NoRepeatsSnoc(s.h.chans[c].pushed, a.n);
    }
  }

  /** A replay moves a row from the plan to the queue, or drops it. */
  lemma DropFromPlan(sent: seq<nat>, todo: seq<nat>)
    requires todo != [] && NoRepeats(sent + todo)
    ensures NoRepeats(sent + todo[1..]) && NoRepeats((sent + [todo[0]]) + todo[1..])
  {
    assert (sent + [todo[0]]) + todo[1..] == sent + todo;
    assert forall i :: 0 <= i < |sent + todo[1..]| ==>
        (sent + todo[1..])[i] == (sent + todo)[if i < |sent| then i else i + 1];
  }

  lemma StepReplayedOnce(s: State, a: Action, c: Client)
    requires Base(s) && Enabled(true, s, a) && c in s.h.chans && ReplayedOnce(s, c)
    ensures c in Apply(true, s, a).h.chans && ReplayedOnce(Apply(true, s, a), c)
  {
    StepQueue(s, a, c);
    if a == List(c, true) {
      IdsForOnce(s.rows, c.order);
      assert ReplayPlan(Apply(true, s, a), c) == IdsFor(s.rows, c.order);
    } else if a == Replay(c) {
      DropFromPlan(s.h.chans[c].replayed, s.conns[c].todo);
    }
  }

  lemma PushReaches(h: HubState, o: int, p: nat)
    requires Tidy(h) && !h.stopped && Reachable(h, o)
    ensures PushedSomewhere(HubRuns.Apply(h, HubRuns.Outbound(o, p)), p)
  {
    var c :| c in Subscribers(h, o) && c in h.chans && HasRoom(h.chans[c]);
    TidyClient(h, c, o);
    HubRuns.OutboundEffect(h, o, p, c);
    assert p in Pushed(h.chans[c], p).pushed;
  }

  lemma PushedStays(s: State, a: Action, n: nat)
    requires Base(s) && Enabled(true, s, a) && PushedSomewhere(s.h, n)
    ensures PushedSomewhere(Apply(true, s, a).h, n)
  {
    var c :| c in s.h.chans && n in s.h.chans[c].pushed;
    StepQueue(s, a, c);
  }

  lemma StepTruthful(s: State, a: Action)
    requires Base(s) && Truthful(s) && Enabled(true, s, a)
    ensures Truthful(Apply(true, s, a))
  {
    var s' := Apply(true, s, a);
    forall n | 0 <= n < |s'.rows| && (s'.senders[n] == ToMark(true) || s'.rows[n].status == NoteSent)
      ensures PushedSomewhere(s'.h, n)
    {
      if a.Push? && a.n == n && s'.senders[n] == ToMark(true) {
        PushReaches(s.h, s.rows[n].order, n);
      } else {
        PushedStays(s, a, n);
      }
    }
  }

  predicate AllSingle(s: State) {
    forall c :: c in s.h.chans ==> PushedOnce(s, c) && ReplayedOnce(s, c)
  }

  lemma StepAllSingle(s: State, a: Action)
    requires Base(s) && AllSingle(s) && Enabled(true, s, a)
    ensures AllSingle(Apply(true, s, a))
  {
    var s' := Apply(true, s, a);
    HubMoves(s, a);
    forall c | c in s'.h.chans ensures PushedOnce(s', c) && ReplayedOnce(s', c) {
      if c in s.h.chans {
        StepPushedOnce(s, a, c);
        StepReplayedOnce(s, a, c);
      } else {
        assert s'.h.chans[c] == NewChan && s'.conns[c] == Opened;
      }
    }
  }

  lemma {:induction false} RunRecords(s: State, acts: seq<Action>)
    requires Base(s) && AllSingle(s) && Truthful(s) && AllFaithful(s.h) && Exec(true, s, acts).Some?
    ensures AllSingle(Exec(true, s, acts).value) && Truthful(Exec(true, s, acts).value)
    ensures AllFaithful(Exec(true, s, acts).value.h)
    decreases |acts|
  {
    if acts != [] {
      var s' := Apply(true, s, acts[0]);
      StepAllSingle(s, acts[0]);
      StepTruthful(s, acts[0]);
      StepFaithfully(s, acts[0]);
      if s'.h.panicked {
        PanicEnds(s', acts[1..]);
      } else {
        StepBase(s, acts[0]);
        RunRecords(s', acts[1..]);
      }
    }
  }

  lemma OnceEachWay(s: State, c: Client, n: nat)
    requires c in s.h.chans && PushedOnce(s, c) && ReplayedOnce(s, c)
    ensures multiset(s.h.chans[c].pushed)[n] <= 1 && multiset(s.h.chans[c].replayed)[n] <= 1
  {
    var ch := s.h.chans[c];
    assert forall i :: 0 <= i < |ch.replayed| ==> ReplayPlan(s, c)[i] == ch.replayed[i];
    CountOnce(ch.pushed, n);
    CountOnce(ch.replayed, n);
  }

  /** A row goes through a client's channel at most twice: once live and once by replay. */
  lemma SeenAtMostTwice(acts: seq<Action>, c: Client, n: nat)
    requires Exec(true, Start, acts).Some? && c in Exec(true, Start, acts).value.h.chans
    ensures var ch := Exec(true, Start, acts).value.h.chans[c];
            && multiset(ch.received + ch.buffer)[n] <= 2
            && multiset(ch.received + ch.buffer)[n] == multiset(ch.pushed)[n] + multiset(ch.replayed)[n]
            && multiset(ch.pushed)[n] <= 1 && multiset(ch.replayed)[n] <= 1
  {
    RunRecords(Start, acts);
    OnceEachWay(Exec(true, Start, acts).value, c, n);
    RecordsTell(Exec(true, Start, acts).value.h.chans[c], n);
  }

  /** A row marked sent was put on some subscriber's channel. */
  lemma SentMeansQueued(acts: seq<Action>, n: nat)
    requires Exec(true, Start, acts).Some? && n < |Exec(true, Start, acts).value.rows|
    requires Exec(true, Start, acts).value.rows[n].status == NoteSent
    ensures exists c :: c in Exec(true, Start, acts).value.h.chans && Queued(Exec(true, Start, acts).value.h, c, n)
  {
    RunRecords(Start, acts);
    var h := Exec(true, Start, acts).value.h;
    assert PushedSomewhere(h, n);
    var c :| c in h.chans && n in h.chans[c].pushed;
    RecordedIsQueued(h, c, n);
  }

  /** A notification of the client's order sent before anyone connected, and the client just opened. */
  function Connecting(c: Client): State {
    State(Empty.(chans := map[c := NewChan]), [Row(c.order, NoteFailed)], [SenderDone], map[c := Opened])
  }

  lemma SentToNobody(c: Client, s: State, rest: seq<Action>)
    requires s == Connecting(c)
    ensures Exec(true, Start, [Persist(c.order)] + ([Push(0, false)] + ([Mark(0, false)] + ([Open(c)] + rest)))) ==
            Exec(true, s, rest)
  {
    ExecCons(true, Start, Persist(c.order), [Push(0, false)] + ([Mark(0, false)] + ([Open(c)] + rest)));
    var s1 := Apply(true, Start, Persist(c.order));
    assert s1 == State(Empty, [Row(c.order, NotePending)], [ToPush], map[]);
    ExecCons(true, s1, Push(0, false), [Mark(0, false)] + ([Open(c)] + rest));
    var s2 := Apply(true, s1, Push(0, false));
    assert s2.h.chans == map[] && s2.h == Empty;
    ExecCons(true, s2, Mark(0, false), [Open(c)] + rest);
    var s3 := Apply(true, s2, Mark(0, false));
    ExecCons(true, s3, Open(c), rest);
    assert Apply(true, s3, Open(c)) == s;
  }

  /** The client has joined and listed; one row is to be replayed. */
  function Listed(c: Client): State {
    Connecting(c).(h := Registered(Connecting(c).h, c), conns := map[c := Replaying([0], false)])
  }

  lemma ConnectAndList(c: Client, s: State, e: State, rest: seq<Action>)
    requires s == Connecting(c) && e == Listed(c)
    ensures Exec(true, s, [Join(c)] + ([List(c, true)] + rest)) == Exec(true, e, rest)
  {
    ExecCons(true, s, Join(c), [List(c, true)] + rest);
    var s1 := Apply(true, s, Join(c));
    ExecCons(true, s1, List(c, true), rest);
    assert s1.rows[..0] == [] && IdsFor(s1.rows, c.order) == [0];
    assert Apply(true, s1, List(c, true)).conns == e.conns;
  }

  lemma ReplayAndReceive(c: Client, s: State)
    requires s == Listed(c)
    ensures var e := Exec(true, s, [Replay(c)] + ([Receive(c)] + []));
            && e.Some? && CaughtUp(e.value, c) && e.value.h.chans[c].received == [0] && e.value.h.chans[c].buffer == []
  {
    ExecCons(true, s, Replay(c), [Receive(c)] + []);
    var s1 := Apply(true, s, Replay(c));
    ExecCons(true, s1, Receive(c), []);
  }

  /** A client that connects after its order's notification went out still receives it, by replay. */
  lemma LateSubscriberReceives(c: Client) returns (acts: seq<Action>)
    ensures Exec(true, Start, acts).Some? && CaughtUp(Exec(true, Start, acts).value, c)
    ensures Exec(true, Start, acts).value.rows == [Row(c.order, NoteFailed)]
    ensures Exec(true, Start, acts).value.h.chans[c].received == [0]
  {
    var s, rest := Connecting(c), [Join(c)] + ([List(c, true)] + ([Replay(c)] + ([Receive(c)] + [])));
    acts := [Persist(c.order)] + ([Push(0, false)] + ([Mark(0, false)] + ([Open(c)] + rest)));
    SentToNobody(c, s, rest);
    ConnectAndList(c, s, Listed(c), [Replay(c)] + ([Receive(c)] + []));
    ReplayAndReceive(c, Listed(c));
    RowsStay(s, rest);
  }

  lemma RowsStay(s: State, acts: seq<Action>)
    requires Exec(true, s, acts).Some? && forall i :: 0 <= i < |acts| ==> !acts[i].Persist? && !acts[i].Mark?
    ensures Exec(true, s, acts).value.rows == s.rows
    decreases |acts|
  {
    if acts != [] {
      RowsStay(Apply(true, s, acts[0]), acts[1..]);
    }
  }
}
