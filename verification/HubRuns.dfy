/**
 Every run of the hub: its own events, the write pumps receiving, and the handler's replay
 sends, which happen outside the hub's goroutine. Sending on or closing a closed channel panics.
 */
module HubRuns {
  import opened Collections
  import opened Orders
  import opened Hub

  datatype Event =
    | NewClient(c: Client)
    | Register(c: Client)
    | Unregister(c: Client)
    | Outbound(order: int, p: nat)
    | Receive(c: Client)            // the write pump takes one payload
    | ClientSend(c: Client, p: nat) // the handler replays a row
    | Stop

  predicate Enabled(h: HubState, e: Event) {
    && !h.panicked
    && match e
       case NewClient(c) => c !in h.chans
       case Register(c) => c in h.chans && !h.stopped
       case Unregister(c) => c in h.chans && !h.stopped
       case Outbound(_, _) => !h.stopped
       case Receive(c) => c in h.chans && h.chans[c].buffer != []
       case ClientSend(c, _) => c in h.chans
       case Stop => !h.stopped
  }

  /** A full buffer drops the payload; a closed channel panics. */
  function Sent(h: HubState, c: Client, p: nat): HubState
    requires c in h.chans
  {
    var ch := h.chans[c];
    if !ch.open then h.(panicked := true)
    else if HasRoom(ch) then h.(chans := h.chans[c := Replayed(ch, p)])
    else h
  }

  function Apply(h: HubState, e: Event): HubState
    requires Enabled(h, e)
  {
    match e
    case NewClient(c) => h.(chans := h.chans[c := NewChan])
    case Register(c) => Registered(h, c)
    case Unregister(c) => Removed(h, c)
    case Outbound(o, p) =>
      FannedOut(h, o, p).(panicked := exists c :: c in Subscribers(h, o) && c in h.chans && !h.chans[c].open)
    case Receive(c) => h.(chans := h.chans[c := Taken(h.chans[c])])
    case ClientSend(c, p) => Sent(h, c, p)
    case Stop => Stopped(h)
  }

  function Run(trace: seq<Event>): Option<HubState> {
    if trace == [] then Some(Empty) else
    match Run(trace[..|trace| - 1])
    case None => None
    case Some(h) => if Enabled(h, trace[|trace| - 1]) then Some(Apply(h, trace[|trace| - 1])) else None
  }

  predicate EverRegistered(trace: seq<Event>, c: Client) {
    exists i :: 0 <= i < |trace| && trace[i] == Register(c)
  }

  /** Each client is registered at most once, as Connect does with the client it has just made. */
  predicate Once(trace: seq<Event>) {
    forall i, j :: 0 <= i < j < |trace| && trace[i].Register? ==> trace[i] != trace[j]
  }

  /** The payloads notified for the client's order since it registered. */
  function NotifiedSince(trace: seq<Event>, c: Client): seq<nat> {
    if trace == [] then [] else
    var before, e := NotifiedSince(trace[..|trace| - 1], c), trace[|trace| - 1];
    if e == Register(c) then []
    else if e.Outbound? && e.order == c.order then before + [e.p]
    else before
  }

  // ---------------------------------------------------------------- one event

  lemma RegisterTidy(h: HubState, c: Client)
    requires Tidy(h) && !h.stopped && c in h.chans && h.chans[c].open
    ensures Tidy(Registered(h, c))
  {
  }

  lemma RemoveTidy(h: HubState, c: Client)
    requires Tidy(h) && !h.stopped
    ensures Tidy(Removed(h, c))
  {
  }

  lemma StopTidy(h: HubState)
    requires Tidy(h)
    ensures Tidy(Stopped(h))
  {
  }

  /** Every event keeps the hub tidy, apart from a handler's send on a closed channel. */
  lemma StepTidy(h: HubState, e: Event)
    requires Tidy(h) && Enabled(h, e)
    requires e.Register? ==> h.chans[e.c].open
    ensures Tidy(Apply(h, e)) || (e.ClientSend? && !h.chans[e.c].open && Apply(h, e).panicked)
  {
    match e
    case Register(c) => RegisterTidy(h, c);
    case Unregister(c) => RemoveTidy(h, c);
    case Outbound(o, p) =>
      FannedTidy(h, o, p, Subscribers(h, o));
      assert forall c :: c in Subscribers(h, o) ==> h.chans[c].open;
    case Stop => StopTidy(h);
    case _ =>
  }

  /**
   What a delivery does to one client: pushed if registered for the order with room, removed if
   full, untouched otherwise.
   */
  lemma OutboundEffect(h: HubState, o: int, p: nat, c: Client)
    requires Tidy(h) && !h.stopped && c in h.chans
    ensures var h' := Apply(h, Outbound(o, p));
            && c in h'.chans
            && (c.order != o || !IsRegistered(h, c) ==>
                h'.chans[c] == h.chans[c] && (IsRegistered(h', c) <==> IsRegistered(h, c)))
            && (c.order == o && IsRegistered(h, c) && HasRoom(h.chans[c]) ==>
                h'.chans[c] == Pushed(h.chans[c], p) && IsRegistered(h', c))
            && (c.order == o && IsRegistered(h, c) && !HasRoom(h.chans[c]) ==>
                h'.chans[c] == Shut(h.chans[c]) && !IsRegistered(h', c))
  {
    var h' := Apply(h, Outbound(o, p));
    if c.order == o && IsRegistered(h, c) {
      assert c in Staying(h, o, Subscribers(h, o)) <==> HasRoom(h.chans[c]);
    } else if c.order != o {
      assert Subscribers(h', c.order) == Subscribers(h, c.order);
      assert c !in Subscribers(h, o);
    }
  }

  /** Events other than deliveries put nothing on a channel on the hub's behalf. */
  lemma QuietEffect(h: HubState, e: Event, c: Client)
    requires Tidy(h) && Enabled(h, e) && !e.Outbound? && c in h.chans
    ensures c in Apply(h, e).chans && Apply(h, e).chans[c].pushed == h.chans[c].pushed
    ensures IsRegistered(Apply(h, e), c) ==> IsRegistered(h, c) || e == Register(c)
    ensures !IsRegistered(h, c) && e != Register(c) ==> Apply(h, e).chans[c].open == h.chans[c].open
  {
  }

  // ---------------------------------------------------------------- every run

  /** What the run so far says about one client's channel. */
  predicate Tracked(trace: seq<Event>, h: HubState, c: Client)
    requires c in h.chans
  {
    && h.chans[c].pushed <= NotifiedSince(trace, c)
    && (IsRegistered(h, c) ==> h.chans[c].pushed == NotifiedSince(trace, c))
    && (!EverRegistered(trace, c) ==> h.chans[c].pushed == [] && h.chans[c].open && !IsRegistered(h, c))
  }

  lemma EverRegisteredFront(trace: seq<Event>, c: Client)
    requires trace != []
    ensures EverRegistered(trace, c) <==> EverRegistered(trace[..|trace| - 1], c) || trace[|trace| - 1] == Register(c)
  {
    var front := trace[..|trace| - 1];
    if EverRegistered(front, c) {
      var i :| 0 <= i < |front| && front[i] == Register(c);
      assert trace[i] == Register(c);
    }
    if EverRegistered(trace, c) {
      var i :| 0 <= i < |trace| && trace[i] == Register(c);
      assert i < |front| ==> front[i] == Register(c);
    }
  }

  lemma TrackedAfterOutbound(trace: seq<Event>, h: HubState, c: Client, o: int, p: nat)
    requires trace != [] && trace[|trace| - 1] == Outbound(o, p)
    requires Tidy(h) && !h.stopped && c in h.chans && Tracked(trace[..|trace| - 1], h, c)
    ensures c in Apply(h, Outbound(o, p)).chans && Tracked(trace, Apply(h, Outbound(o, p)), c)
  {
    EverRegisteredFront(trace, c);
    OutboundEffect(h, o, p, c);
  }

  lemma TrackedAfterQuiet(trace: seq<Event>, h: HubState, c: Client, e: Event)
    requires trace != [] && trace[|trace| - 1] == e && !e.Outbound?
    requires Tidy(h) && Enabled(h, e) && c in h.chans && Tracked(trace[..|trace| - 1], h, c)
    requires e == Register(c) ==> !EverRegistered(trace[..|trace| - 1], c)
    ensures c in Apply(h, e).chans && Tracked(trace, Apply(h, e), c)
  {
    EverRegisteredFront(trace, c);
    QuietEffect(h, e, c);
  }

  lemma OnceFront(trace: seq<Event>)
    requires trace != [] && Once(trace)
    ensures Once(trace[..|trace| - 1])
    ensures trace[|trace| - 1].Register? ==> !EverRegistered(trace[..|trace| - 1], trace[|trace| - 1].c)
  {
    var front := trace[..|trace| - 1];
    assert forall i :: 0 <= i < |front| ==> front[i] == trace[i];
  }

  predicate AllTracked(trace: seq<Event>, h: HubState) {
    forall c :: c in h.chans ==> Tracked(trace, h, c)
  }

  /** No client has registered before it exists. */
  predicate RegisteredExist(trace: seq<Event>, h: HubState) {
    forall i :: 0 <= i < |trace| && trace[i].Register? ==> trace[i].c in h.chans
  }

  lemma StepTracked(trace: seq<Event>, h: HubState)
    requires trace != [] && Once(trace) && Tidy(h) && Enabled(h, trace[|trace| - 1])
    requires AllTracked(trace[..|trace| - 1], h) && RegisteredExist(trace[..|trace| - 1], h)
    ensures AllTracked(trace, Apply(h, trace[|trace| - 1]))
    ensures RegisteredExist(trace, Apply(h, trace[|trace| - 1]))
  {
    var e, front := trace[|trace| - 1], trace[..|trace| - 1];
    var h' := Apply(h, e);
    OnceFront(trace);
    forall c | c in h'.chans ensures Tracked(trace, h', c) {
      if c in h.chans {
        assert Tracked(front, h, c);
        if e.Outbound? {
          TrackedAfterOutbound(trace, h, c, e.order, e.p);
        } else {
          TrackedAfterQuiet(trace, h, c, e);
        }
      } else {
        EverRegisteredFront(trace, c);
      }
    }
    forall i | 0 <= i < |trace| && trace[i].Register? ensures trace[i].c in h'.chans {
      assert i < |front| ==> front[i] == trace[i];
    }
  }

  lemma {:induction false} RunTracked(trace: seq<Event>)
    requires Once(trace) && Run(trace).Some?
    ensures var h := Run(trace).value;
            if h.panicked then trace != [] && trace[|trace| - 1].ClientSend?
            else Tidy(h) && AllTracked(trace, h) && RegisteredExist(trace, h)
  {
    if trace != [] {
      var e, front := trace[|trace| - 1], trace[..|trace| - 1];
      OnceFront(trace);
      RunTracked(front);
      var h := Run(front).value;
      if e.Register? {
        assert Tracked(front, h, e.c);
      }
      StepTidy(h, e);
      StepTracked(trace, h);
    }
  }

  // ---------------------------------------------------------------- what goes through a channel

  /** How one event changes a client's channel. */
  lemma ChannelStep(h: HubState, e: Event, c: Client)
    requires Tidy(h) && Enabled(h, e) && c in h.chans
    ensures c in Apply(h, e).chans
    ensures var was, now := h.chans[c], Apply(h, e).chans[c];
            || now == was || now == Shut(was)
            || (e.Outbound? && now == Pushed(was, e.p))
            || (e.ClientSend? && e.c == c && was.open && HasRoom(was) && now == Replayed(was, e.p))
            || (e == Receive(c) && was.buffer != [] && now == Taken(was))
    ensures e == Receive(c) ==> Apply(h, e).chans[c] == Taken(h.chans[c])
    ensures e.ClientSend? && e.c == c && h.chans[c].open && HasRoom(h.chans[c]) ==>
              Apply(h, e).chans[c] == Replayed(h.chans[c], e.p)
  {
    if e.Outbound? {
      OutboundEffect(h, e.order, e.p, c);
    }
  }

  lemma StepFaithful(h: HubState, e: Event, c: Client)
    requires Tidy(h) && Enabled(h, e) && c in Apply(h, e).chans && (c in h.chans ==> Faithful(h.chans[c]))
    ensures Faithful(Apply(h, e).chans[c])
  {
    if c in h.chans {
      ChannelStep(h, e, c);
      PushedFaithful(h.chans[c], if e.Outbound? || e.ClientSend? then e.p else 0);
      if h.chans[c].buffer != [] {
        TakenFaithful(h.chans[c]);
      }
    }
  }

  lemma {:induction false} RunFaithful(trace: seq<Event>, c: Client)
    requires Once(trace) && Run(trace).Some? && c in Run(trace).value.chans
    ensures Faithful(Run(trace).value.chans[c])
  {
    if trace != [] {
      var front := trace[..|trace| - 1];
      OnceFront(trace);
      RunTracked(front);
      if c in Run(front).value.chans {
        RunFaithful(front, c);
      }
      StepFaithful(Run(front).value, trace[|trace| - 1], c);
    }
  }

  /** The payloads the handler replayed to the client, without those that found 32 waiting. */
  function ReplayedBy(trace: seq<Event>, c: Client): seq<nat> {
    if trace == [] then [] else
    var front, e := trace[..|trace| - 1], trace[|trace| - 1];
    ReplayedBy(front, c) +
    if e.ClientSend? && e.c == c && RoomAfter(front, c) then [e.p] else []
  }

  predicate RoomAfter(trace: seq<Event>, c: Client) {
    && Run(trace).Some? && c in Run(trace).value.chans
    && Run(trace).value.chans[c].open && |Run(trace).value.chans[c].buffer| < 32
  }

  /** How often the write pump received. */
  function Receives(trace: seq<Event>, c: Client): nat {
    if trace == [] then 0
    else Receives(trace[..|trace| - 1], c) + if trace[|trace| - 1] == Receive(c) then 1 else 0
  }

  lemma {:induction false} RunReplayed(trace: seq<Event>, c: Client)
    requires Once(trace) && Run(trace).Some?
    ensures c in Run(trace).value.chans ==>
              Run(trace).value.chans[c].replayed == ReplayedBy(trace, c)
                  && |Run(trace).value.chans[c].received| == Receives(trace, c)
    ensures c !in Run(trace).value.chans ==> ReplayedBy(trace, c) == [] && Receives(trace, c) == 0
  {
    if trace != [] {
      var front, e := trace[..|trace| - 1], trace[|trace| - 1];
      OnceFront(trace);
      RunTracked(front);
      RunReplayed(front, c);
      var h := Run(front).value;
      if c in h.chans {
        ChannelStep(h, e, c);
      }
    }
  }

  /**
   Over every run, what a client received and what still waits for it are together exactly what was
   put on its channel, in that order: the live payloads are a contiguous beginning of those notified
   for its order since it registered, the others are those replayed to it. As many are received as
   the pump took.
   */
  lemma ChannelHolds(trace: seq<Event>, c: Client)
    requires Once(trace) && Run(trace).Some? && !Run(trace).value.panicked && c in Run(trace).value.chans
    ensures var ch := Run(trace).value.chans[c];
            && ch.received + ch.buffer == Payloads(ch.sent)
            && PutBy(ch.sent, true) <= NotifiedSince(trace, c)
            && PutBy(ch.sent, false) == ReplayedBy(trace, c)
            && |ch.received| == Receives(trace, c)
  {
    RunFaithful(trace, c);
    RunReplayed(trace, c);
    RunTracked(trace);
    assert Tracked(trace, Run(trace).value, c);
  }

  lemma {:induction false} OnlyLive(sent: seq<Put>)
    requires PutBy(sent, false) == []
    ensures Payloads(sent) == PutBy(sent, true)
  {
    if sent != [] {
      OnlyLive(sent[..|sent| - 1]);
    }
  }

  /**
   A client still registered has received, or has waiting on its channel, exactly what was notified
   for its order since it registered, in order, among what was replayed to it.
   */
  lemma GapFree(trace: seq<Event>, c: Client)
    requires Once(trace) && Run(trace).Some? && !Run(trace).value.panicked && IsRegistered(Run(trace).value, c)
    ensures c in Run(trace).value.chans
    ensures var ch := Run(trace).value.chans[c];
            && ch.received + ch.buffer == Payloads(ch.sent)
            && PutBy(ch.sent, true) == NotifiedSince(trace, c)
            && PutBy(ch.sent, false) == ReplayedBy(trace, c)
            && (ReplayedBy(trace, c) == [] ==> ch.received + ch.buffer == NotifiedSince(trace, c))
  {
    RunTracked(trace);
    TidyClient(Run(trace).value, c, c.order);
    assert Tracked(trace, Run(trace).value, c);
    RunFaithful(trace, c);
    RunReplayed(trace, c);
    if ReplayedBy(trace, c) == [] {
      OnlyLive(Run(trace).value.chans[c].sent);
    }
  }

  /** Any client, registered or not, got a contiguous beginning of that sequence. */
  lemma PrefixUntilDropped(trace: seq<Event>, c: Client)
    requires Once(trace) && Run(trace).Some? && !Run(trace).value.panicked && c in Run(trace).value.chans
    ensures Run(trace).value.chans[c].pushed <= NotifiedSince(trace, c)
  {
    RunTracked(trace);
    assert Tracked(trace, Run(trace).value, c);
  }

  // ---------------------------------------------------------------- which channels are closed, and who panics

  /** A client's channel is closed exactly when it was registered at some time and is not any more. */
  predicate ShutIffDropped(trace: seq<Event>, h: HubState, c: Client)
    requires c in h.chans
  {
    !h.chans[c].open <==> EverRegistered(trace, c) && !IsRegistered(h, c)
  }

  /** A registration is the only event that registers, and the three ways to lose it all close the channel. */
  lemma EventShuts(h: HubState, e: Event, c: Client)
    requires Tidy(h) && Enabled(h, e) && c in h.chans
    ensures c in Apply(h, e).chans
    ensures e == Register(c) ==> IsRegistered(Apply(h, e), c) && Apply(h, e).chans[c].open == h.chans[c].open
    ensures e != Register(c) && !IsRegistered(h, c) ==>
              !IsRegistered(Apply(h, e), c) && Apply(h, e).chans[c].open == h.chans[c].open
    ensures e != Register(c) && IsRegistered(h, c) ==> (IsRegistered(Apply(h, e), c) <==> Apply(h, e).chans[c].open)
  {
    if IsRegistered(h, c) {
      TidyClient(h, c, c.order);
    }
    if e.Outbound? {
      OutboundEffect(h, e.order, e.p, c);
    }
  }

  lemma StepShut(trace: seq<Event>, h: HubState, c: Client)
    requires trace != [] && Tidy(h) && Enabled(h, trace[|trace| - 1])
    requires trace[|trace| - 1] == Register(c) ==> !EverRegistered(trace[..|trace| - 1], c)
    requires RegisteredExist(trace[..|trace| - 1], h)
    requires c in h.chans ==> ShutIffDropped(trace[..|trace| - 1], h, c)
    requires IsRegistered(h, c) ==> EverRegistered(trace[..|trace| - 1], c)
    requires c in Apply(h, trace[|trace| - 1]).chans
    ensures ShutIffDropped(trace, Apply(h, trace[|trace| - 1]), c)
  {
    EverRegisteredFront(trace, c);
    if c in h.chans {
      EventShuts(h, trace[|trace| - 1], c);
    }
  }

  lemma {:induction false} RunShut(trace: seq<Event>, c: Client)
    requires Once(trace) && Run(trace).Some? && c in Run(trace).value.chans
    ensures ShutIffDropped(trace, Run(trace).value, c)
  {
    if trace != [] {
      var front := trace[..|trace| - 1];
      OnceFront(trace);
      RunTracked(front);
      var h := Run(front).value;
      if c in h.chans {
        RunShut(front, c);
        assert Tracked(front, h, c);
      }
      StepShut(trace, h, c);
    }
  }

  /**
   Exactly which events panic: a handler's own send to a client that was registered and has
   been dropped since. The hub's events never do.
   */
  lemma PanicsIffSentAfterDrop(trace: seq<Event>, e: Event)
    requires Once(trace + [e]) && Run(trace).Some? && Enabled(Run(trace).value, e)
    ensures Apply(Run(trace).value, e).panicked <==>
              e.ClientSend? && EverRegistered(trace, e.c) && !IsRegistered(Run(trace).value, e.c)
  {
    var whole := trace + [e];
    assert whole[..|trace|] == trace;
    OnceFront(whole);
    RunTracked(trace);
    var h := Run(trace).value;
    if e.Register? {
      assert Tracked(trace, h, e.c);
    }
    StepTidy(h, e);
    if e.ClientSend? {
      RunShut(trace, e.c);
    }
  }

  /** Every send of the run went to a client that was registered at that moment, or never had been. */
  ghost predicate SendsBeforeDrop(trace: seq<Event>)
    requires Run(trace).Some?
  {
    forall k :: 0 <= k < |trace| && trace[k].ClientSend? ==> MaySend(trace, k)
  }

  predicate MaySend(trace: seq<Event>, k: int) {
    && 0 <= k < |trace| && trace[k].ClientSend? && Run(trace[..k]).Some?
    && (EverRegistered(trace[..k], trace[k].c) ==> IsRegistered(Run(trace[..k]).value, trace[k].c))
  }

  lemma {:induction false} RunPrefix(trace: seq<Event>, k: nat)
    requires Run(trace).Some? && k <= |trace|
    ensures Run(trace[..k]).Some? && (k < |trace| ==> Enabled(Run(trace[..k]).value, trace[k]))
    decreases |trace|
  {
    if k < |trace| {
      var front := trace[..|trace| - 1];
      assert trace[..k] == front[..k];
      if k < |front| {
        RunPrefix(front, k);
      }
    } else {
      assert trace[..k] == trace;
    }
  }

  lemma {:induction false} OncePrefix(trace: seq<Event>, k: nat)
    requires Once(trace) && k <= |trace|
    ensures Once(trace[..k])
  {
  }

  /** A whole run stays clear of the panic exactly when each replay is sent before the hub drops its client. */
  lemma NoPanicIffSendsBeforeDrop(trace: seq<Event>)
    requires Once(trace) && Run(trace).Some?
    ensures !Run(trace).value.panicked <==> SendsBeforeDrop(trace)
  {
    forall k | 0 <= k < |trace| && trace[k].ClientSend? && k < |trace| - 1 ensures MaySend(trace, k) {
      SendAt(trace, k);
      RunPrefix(trace, k + 1);
    }
    if trace != [] {
      var last := |trace| - 1;
      RunPrefix(trace, last);
      assert trace[..last] + [trace[last]] == trace;
      PanicsIffSentAfterDrop(trace[..last], trace[last]);
    }
  }

  lemma SendNow(front: seq<Event>, e: Event)
    requires Once(front + [e]) && Run(front).Some? && Enabled(Run(front).value, e) && e.ClientSend?
    ensures Run(front + [e]).Some?
    ensures !Run(front + [e]).value.panicked && EverRegistered(front, e.c) ==> IsRegistered(Run(front).value, e.c)
  {
    RunSnoc(front, e, Run(front).value);
    PanicsIffSentAfterDrop(front, e);
  }

  lemma SendAt(trace: seq<Event>, k: nat)
    requires Once(trace) && Run(trace).Some? && k < |trace| && trace[k].ClientSend?
    ensures Run(trace[..k + 1]).Some? && (!Run(trace[..k + 1]).value.panicked ==> MaySend(trace, k))
  {
    RunPrefix(trace, k);
    OncePrefix(trace, k + 1);
    var front, e := trace[..k], trace[k];
    assert trace[..k + 1] == front + [e];
    SendNow(front, e);
  }

  /** Event k took registered client c out: it left, the hub stopped, or a payload for it found its buffer full. */
  predicate DroppedAt(trace: seq<Event>, c: Client, k: nat) {
    && k < |trace| && Run(trace[..k]).Some?
    && var h := Run(trace[..k]).value;
       && IsRegistered(h, c) && c in h.chans
       && (|| trace[k] == Unregister(c) || trace[k] == Stop
           || (trace[k].Outbound? && trace[k].order == c.order && !HasRoom(h.chans[c])))
  }

  lemma DropsBy(h: HubState, e: Event, c: Client)
    requires Tidy(h) && Enabled(h, e) && c in h.chans && IsRegistered(h, c) && !IsRegistered(Apply(h, e), c)
    ensures e == Unregister(c) || e == Stop || (e.Outbound? && e.order == c.order && !HasRoom(h.chans[c]))
    ensures c in Apply(h, e).chans && Apply(h, e).chans[c].pushed == h.chans[c].pushed
  {
    if e.Outbound? {
      OutboundEffect(h, e.order, e.p, c);
    } else {
      QuietEffect(h, e, c);
    }
  }

  lemma Unserved(h: HubState, e: Event, c: Client)
    requires Tidy(h) && Enabled(h, e) && c in h.chans && !IsRegistered(h, c)
    ensures c in Apply(h, e).chans && Apply(h, e).chans[c].pushed == h.chans[c].pushed
  {
    if e.Outbound? {
      OutboundEffect(h, e.order, e.p, c);
    } else {
      QuietEffect(h, e, c);
    }
  }

  lemma DroppedOnFile(trace: seq<Event>, c: Client)
    requires Once(trace) && Run(trace).Some? && !Run(trace).value.panicked && EverRegistered(trace, c)
    ensures c in Run(trace).value.chans && Faithful(Run(trace).value.chans[c])
  {
    RunTracked(trace);
    var i :| 0 <= i < |trace| && trace[i] == Register(c);
    RunFaithful(trace, c);
  }

  /**
   A client that was registered and is not any more was queued exactly the payloads notified
   for its order from its registration up to the event that dropped it, and nothing after.
   */
  lemma {:induction false} ExactUntilDropped(trace: seq<Event>, c: Client) returns (k: nat)
    requires Once(trace) && Run(trace).Some? && !Run(trace).value.panicked
    requires EverRegistered(trace, c) && !IsRegistered(Run(trace).value, c)
    ensures DroppedAt(trace, c, k)
    ensures c in Run(trace).value.chans && Run(trace).value.chans[c].pushed == NotifiedSince(trace[..k], c)
    ensures var ch := Run(trace).value.chans[c];
            ch.received + ch.buffer == Payloads(ch.sent) && PutBy(ch.sent, true) == NotifiedSince(trace[..k], c)
  {
    var e, front := trace[|trace| - 1], trace[..|trace| - 1];
    OnceFront(trace);
    RunTracked(front);
    EverRegisteredFront(trace, c);
    var h := Run(front).value;
    DroppedOnFile(trace, c);
    if IsRegistered(h, c) {
      TidyClient(h, c, c.order);
      assert Tracked(front, h, c);
      DropsBy(h, e, c);
      k := |front|;
    } else {
      k := ExactUntilDropped(front, c);
      Unserved(h, e, c);
      assert front[..k] == trace[..k];
    }
  }

  /**
   The hub itself never panics: it closes each channel at most once, never sends on a closed
   one and keeps no empty set. The only way to a panic is a handler's own send on a channel
   the hub has closed, and a channel is closed exactly when its client was dropped.
   */
  lemma CloseOnce(trace: seq<Event>)
    requires Once(trace) && Run(trace).Some?
    ensures var h := Run(trace).value;
            && (h.panicked <==> !SendsBeforeDrop(trace))
            && (h.panicked ==> trace != [] && trace[|trace| - 1].ClientSend?)
            && (forall c :: c in h.chans ==> ShutIffDropped(trace, h, c))
            && (!h.panicked ==>
                  && (forall o :: o in h.clients ==> h.clients[o] != {})
                  && (forall c :: IsRegistered(h, c) ==> c in h.chans && h.chans[c].open)
                  && (forall c :: c in h.chans ==>
                      h.chans[c].closes <= 1 && (h.chans[c].open <==> h.chans[c].closes == 0)))
  {
    RunTracked(trace);
    NoPanicIffSendsBeforeDrop(trace);
    var h := Run(trace).value;
    forall c | c in h.chans ensures ShutIffDropped(trace, h, c) {
      RunShut(trace, c);
    }
    if !h.panicked {
      forall c | IsRegistered(h, c) ensures c in h.chans && h.chans[c].open {
        TidyClient(h, c, c.order);
      }
    }
  }

  lemma RunSnoc(trace: seq<Event>, e: Event, h: HubState)
    requires Run(trace) == Some(h) && Enabled(h, e)
    ensures Run(trace + [e]) == Some(Apply(h, e))
  {
    assert (trace + [e])[..|trace|] == trace;
  }

  /** A client that connects and is dropped. */
  lemma Dropped(c: Client) returns (trace: seq<Event>, h: HubState)
    ensures trace == [NewClient(c), Register(c), Unregister(c)] && Run(trace) == Some(h) && Once(trace)
    ensures h == HubState(map[], map[c := Shut(NewChan)], false, false)
  {
    trace := [] + [NewClient(c)] + [Register(c)] + [Unregister(c)];
    RunSnoc([], NewClient(c), Empty);
    var h1 := Apply(Empty, NewClient(c));
    RunSnoc([] + [NewClient(c)], Register(c), h1);
    var h2 := Apply(h1, Register(c));
    assert Subscribers(h2, c.order) == {c};
    RunSnoc([] + [NewClient(c)] + [Register(c)], Unregister(c), h2);
    h := Apply(h2, Unregister(c));
    assert h.clients == map[];
  }

  /** Registering the same client again after it was dropped makes the hub send on a closed channel. */
  lemma RegisteredTwicePanics(c: Client) returns (trace: seq<Event>)
    ensures !Once(trace) && Run(trace).Some? && Run(trace).value.panicked && trace[|trace| - 1].Outbound?
  {
    var t, h := Dropped(c);
    RunSnoc(t, Register(c), h);
    var h1 := Apply(h, Register(c));
    assert c in Subscribers(h1, c.order) && !h1.chans[c].open;
    RunSnoc(t + [Register(c)], Outbound(c.order, 1), h1);
    trace := t + [Register(c)] + [Outbound(c.order, 1)];
    assert trace[1] == Register(c) && trace[3] == Register(c);
  }

  /** The replay send runs on the handler's goroutine and can hit a channel the hub has closed meanwhile. */
  lemma ReplayAfterDropPanics(c: Client) returns (trace: seq<Event>)
    ensures Once(trace) && Run(trace).Some? && Run(trace).value.panicked
  {
    var t, h := Dropped(c);
    RunSnoc(t, ClientSend(c, 1), h);
    trace := t + [ClientSend(c, 1)];
  }

  lemma ReceiveOne(h: HubState, c: Client, all: seq<nat>, k: nat)
    requires !h.panicked && c in h.chans && k < |all| && h.chans[c].buffer == all[k..]
    ensures Enabled(h, Receive(c))
    ensures var h' := Apply(h, Receive(c));
            && !h'.panicked && c in h'.chans && h'.chans[c].buffer == all[k + 1..]
            && h'.chans[c].received == h.chans[c].received + [all[k]]
  {
    assert all[k..][1..] == all[k + 1..] && all[k..][0] == all[k];
  }

  lemma {:induction false} PumpSteps(trace: seq<Event>, c: Client, was: Chan, k: nat)
    requires Run(trace).Some? && !Run(trace).value.panicked && c in Run(trace).value.chans
    requires was == Run(trace).value.chans[c] && k <= |was.buffer|
    ensures Run(trace + Repeat(Receive(c), k)).Some?
    ensures var h := Run(trace + Repeat(Receive(c), k)).value;
            && !h.panicked && c in h.chans
            && h.chans[c].buffer == was.buffer[k..] && h.chans[c].received == was.received + was.buffer[..k]
  {
    if k == 0 {
      assert trace + Repeat(Receive(c), 0) == trace;
      assert was.buffer[0..] == was.buffer;
    } else {
      var before := trace + Repeat(Receive(c), k - 1);
      PumpSteps(trace, c, was, k - 1);
      RepeatSnoc(Receive(c), k - 1);
      assert trace + Repeat(Receive(c), k) == before + [Receive(c)];
      ReceiveOne(Run(before).value, c, was.buffer, k - 1);
      RunSnoc(before, Receive(c), Run(before).value);
      assert was.buffer[..k] == was.buffer[..k - 1] + [was.buffer[k - 1]];
    }
  }

  /** The write pump can always empty the channel, registered or not, and then has received all that was put on it. */
  lemma PumpDrains(trace: seq<Event>, c: Client) returns (more: seq<Event>)
    requires Once(trace) && Run(trace).Some? && !Run(trace).value.panicked && c in Run(trace).value.chans
    ensures Run(trace + more).Some? && c in Run(trace + more).value.chans
    ensures var was, now := Run(trace).value.chans[c], Run(trace + more).value.chans[c];
            now.buffer == [] && now.received == was.received + was.buffer && now.received == Payloads(was.sent)
  {
    var n := |Run(trace).value.chans[c].buffer|;
    more := Repeat(Receive(c), n);
    PumpSteps(trace, c, Run(trace).value.chans[c], n);
    RunFaithful(trace, c);
  }
}
