/**
 The notification hub: one goroutine owns the map from order to subscribed clients and
 handles registrations, removals, deliveries and the stop one at a time. A client that
 cannot take a payload is removed rather than waited for. Payloads are the ids of the
 notification rows they carry.
 */
module Hub {
  import opened Orders

  /** Depth of a client's outbound queue. */
  const SEND_BUFFER := 32

  datatype Client = Client(id: nat, order: int)

  /** One payload put on a channel, by the hub (live) or by the handler's replay. */
  datatype Put = Put(live: bool, p: nat)

  /**
   A client's send channel: the payloads waiting in it and those the write pump has received. The
   rest is a record of what was ever put on it: by the hub, by the handler, and both in order.
   */
  datatype Chan = Chan(buffer: seq<nat>, open: bool, closes: nat, received: seq<nat>,
                       pushed: seq<nat>, replayed: seq<nat>, sent: seq<Put>)

  datatype HubState = HubState(clients: map<int, set<Client>>, chans: map<Client, Chan>, stopped: bool, panicked: bool)

  const NewChan := Chan([], true, 0, [], [], [], [])

  function Subscribers(h: HubState, order: int): set<Client> {
    if order in h.clients then h.clients[order] else {}
  }

  predicate IsRegistered(h: HubState, c: Client) {
    c in Subscribers(h, c.order)
  }

  predicate HasRoom(ch: Chan) {
    |ch.buffer| < SEND_BUFFER
  }

  function Pushed(ch: Chan, p: nat): Chan {
    ch.(buffer := ch.buffer + [p], pushed := ch.pushed + [p], sent := ch.sent + [Put(true, p)])
  }

  function Replayed(ch: Chan, p: nat): Chan {
    ch.(buffer := ch.buffer + [p], replayed := ch.replayed + [p], sent := ch.sent + [Put(false, p)])
  }

  /** The write pump receives the payload at the front. */
  function Taken(ch: Chan): Chan
    requires ch.buffer != []
  {
    ch.(buffer := ch.buffer[1..], received := ch.received + [ch.buffer[0]])
  }

  function Shut(ch: Chan): Chan {
    ch.(open := false, closes := ch.closes + 1)
  }

  /** The map without client c, and without its order's entry if that was the last one. */
  function Without(clients: map<int, set<Client>>, c: Client): map<int, set<Client>> {
    if c.order in clients then
      if clients[c.order] - {c} == {} then clients - {c.order} else clients[c.order := clients[c.order] - {c}]
    else clients
  }

  function Removed(h: HubState, c: Client): HubState {
    if IsRegistered(h, c) && c in h.chans then
      h.(clients := Without(h.clients, c), chans := h.chans[c := Shut(h.chans[c])],
         panicked := h.panicked || !h.chans[c].open)
    else h
  }

  // ---------------------------------------------------------------- what is on a channel

  function Payloads(sent: seq<Put>): seq<nat> {
    if sent == [] then [] else Payloads(sent[..|sent| - 1]) + [sent[|sent| - 1].p]
  }

  /** The payloads put there by the hub, or by the handler, in order. */
  function PutBy(sent: seq<Put>, live: bool): seq<nat> {
    if sent == [] then []
    else PutBy(sent[..|sent| - 1], live) + if sent[|sent| - 1].live == live then [sent[|sent| - 1].p] else []
  }

  /** Received and waiting together are all that was ever put on the channel, in the order it was put there. */
  predicate Faithful(ch: Chan) {
    && ch.received + ch.buffer == Payloads(ch.sent)
    && ch.pushed == PutBy(ch.sent, true)
    && ch.replayed == PutBy(ch.sent, false)
  }

  predicate AllFaithful(h: HubState) {
    forall c :: c in h.chans ==> Faithful(h.chans[c])
  }

  lemma PutSnoc(sent: seq<Put>, x: Put)
    ensures Payloads(sent + [x]) == Payloads(sent) + [x.p]
    ensures PutBy(sent + [x], x.live) == PutBy(sent, x.live) + [x.p]
              && PutBy(sent + [x], !x.live) == PutBy(sent, !x.live)
  {
    assert (sent + [x])[..|sent|] == sent;
  }

  lemma PushedFaithful(ch: Chan, p: nat)
    requires Faithful(ch)
    ensures Faithful(Pushed(ch, p)) && Faithful(Replayed(ch, p)) && Faithful(Shut(ch))
  {
    PutSnoc(ch.sent, Put(true, p));
    PutSnoc(ch.sent, Put(false, p));
    assert ch.received + (ch.buffer + [p]) == (ch.received + ch.buffer) + [p];
  }

  lemma TakenFaithful(ch: Chan)
    requires Faithful(ch) && ch.buffer != []
    ensures Faithful(Taken(ch))
  {
    assert ch.buffer == [ch.buffer[0]] + ch.buffer[1..];
    assert ch.received + [ch.buffer[0]] + ch.buffer[1..] == ch.received + ch.buffer;
  }

  lemma {:induction false} PutCounts(sent: seq<Put>)
    ensures multiset(Payloads(sent)) == multiset(PutBy(sent, true)) + multiset(PutBy(sent, false))
  {
    if sent != [] {
      PutCounts(sent[..|sent| - 1]);
    }
  }

  /** Payload n is waiting on the channel or was received from it. */
  predicate OnChannel(ch: Chan, n: nat) {
    n in ch.received || n in ch.buffer
  }

  /** The two records together say what went through the channel, and how often. */
  lemma RecordsTell(ch: Chan, n: nat)
    requires Faithful(ch)
    ensures OnChannel(ch, n) <==> n in ch.pushed || n in ch.replayed
    ensures multiset(ch.received + ch.buffer)[n] == multiset(ch.pushed)[n] + multiset(ch.replayed)[n]
    ensures |ch.received| + |ch.buffer| == |ch.pushed| + |ch.replayed|
  {
    PutCounts(ch.sent);
    var all := ch.received + ch.buffer;
    assert n in all <==> OnChannel(ch, n);
    assert n in multiset(all) <==> n in multiset(ch.pushed) || n in multiset(ch.replayed);
    assert |multiset(all)| == |all| && |multiset(ch.pushed)| == |ch.pushed| && |multiset(ch.replayed)| == |ch.replayed|;
  }

  // ---------------------------------------------------------------- delivery, as a value

  /** What becomes of one client's channel when payload p is delivered to the clients in done. */
  function Offered(ch: Chan, p: nat): Chan {
    if HasRoom(ch) then Pushed(ch, p) else Shut(ch)
  }

  /** The subscribers that are still there once those in done have been served. */
  function Staying(h: HubState, order: int, done: set<Client>): set<Client> {
    set c | c in Subscribers(h, order) && (c !in done || (c in h.chans && HasRoom(h.chans[c])))
  }

  /** The state once the subscribers in done have been served, in whatever order. */
  function FannedTo(h: HubState, order: int, p: nat, done: set<Client>): HubState {
    var subs, left := Subscribers(h, order), Staying(h, order, done);
    h.(clients := if order !in h.clients then h.clients
                  else if left == {} then h.clients - {order}
                  else h.clients[order := left],
       chans := map c | c in h.chans :: if c in subs && c in done then Offered(h.chans[c], p) else h.chans[c])
  }

  function FannedOut(h: HubState, order: int, p: nat): HubState {
    FannedTo(h, order, p, Subscribers(h, order))
  }

  /** Some subscriber can take the payload. */
  predicate Reachable(h: HubState, order: int) {
    exists c :: c in Subscribers(h, order) && c in h.chans && HasRoom(h.chans[c])
  }

  // ---------------------------------------------------------------- well-formed hubs

  /** Sets are kept under their own order and never empty; registered clients have open channels. */
  predicate Tidy(h: HubState) {
    && (forall o :: o in h.clients ==> h.clients[o] != {})
    && (forall o, c :: o in h.clients && c in h.clients[o] ==> c.order == o && c in h.chans && h.chans[c].open)
    && (forall c :: c in h.chans ==>
        h.chans[c].closes == (if h.chans[c].open then 0 else 1) && |h.chans[c].buffer| <= SEND_BUFFER)
    && (h.stopped ==> h.clients == map[])
    && !h.panicked
  }

  /** Tidiness as far as one client goes: what a single delivery step relies on. */
  lemma TidyClient(h: HubState, c: Client, o: int)
    requires Tidy(h) && c in Subscribers(h, o)
    ensures c.order == o && c in h.chans && h.chans[c].open && IsRegistered(h, c)
  {
  }

  const Empty := HubState(map[], map[], false, false)

  lemma FannedTidy(h: HubState, order: int, p: nat, done: set<Client>)
    requires Tidy(h)
    ensures Tidy(FannedTo(h, order, p, done))
  {
  }

  lemma FannedNone(h: HubState, order: int, p: nat)
    requires Tidy(h)
    ensures FannedTo(h, order, p, {}) == h
  {
    assert Staying(h, order, {}) == Subscribers(h, order);
    var g := FannedTo(h, order, p, {});
    assert g.clients == h.clients;
    assert g.chans == h.chans;
  }

  /** Serving one more subscriber: a push if there is room, removal otherwise. */
  lemma DeliverPush(h: HubState, order: int, p: nat, done: set<Client>, c: Client)
    requires Tidy(h) && c in Subscribers(h, order) && c !in done && HasRoom(h.chans[c])
    ensures var g := FannedTo(h, order, p, done);
            && c in g.chans && g.chans[c] == h.chans[c]
            && FannedTo(h, order, p, done + {c}) == g.(chans := g.chans[c := Pushed(g.chans[c], p)])
  {
    var g, g' := FannedTo(h, order, p, done), FannedTo(h, order, p, done + {c});
    assert Staying(h, order, done + {c}) == Staying(h, order, done);
    assert g'.chans == g.chans[c := Pushed(g.chans[c], p)];
  }

  lemma DeliverRemove(h: HubState, order: int, p: nat, done: set<Client>, c: Client)
    requires Tidy(h) && c in Subscribers(h, order) && c !in done && !HasRoom(h.chans[c])
    ensures var g := FannedTo(h, order, p, done);
            && c in g.chans && g.chans[c] == h.chans[c]
            && FannedTo(h, order, p, done + {c}) == Removed(g, c)
  {
    var g, g' := FannedTo(h, order, p, done), FannedTo(h, order, p, done + {c});
    assert c in Staying(h, order, done);
    assert Staying(h, order, done + {c}) == Staying(h, order, done) - {c};
    assert g'.chans == g.chans[c := Shut(g.chans[c])];
    assert g'.clients == Without(g.clients, c);
  }

  // ---------------------------------------------------------------- each event, client by client

  /**
   A delivery puts the payload at the back of every subscriber's channel that holds fewer than 32
   payloads, takes out and closes every other subscriber, and touches no one else.
   */
  lemma FannedAt(h: HubState, order: int, p: nat, c: Client)
    requires Tidy(h) && c in h.chans
    ensures var h' := FannedOut(h, order, p);
            && c in h'.chans
            && var was, now := h.chans[c], h'.chans[c];
               if c !in Subscribers(h, order) then
                 now == was && (IsRegistered(h', c) <==> IsRegistered(h, c))
               else if |was.buffer| < 32 then
                 && IsRegistered(h', c) && now.open && now.closes == was.closes
                 && now.buffer == was.buffer + [p] && now.received == was.received
                 && now.pushed == was.pushed + [p] && now.replayed == was.replayed
               else
                 && !IsRegistered(h', c) && !now.open && now.closes == was.closes + 1
                 && now.buffer == was.buffer && now.received == was.received
                 && now.pushed == was.pushed && now.replayed == was.replayed
  {
    var h' := FannedOut(h, order, p);
    if c in Subscribers(h, order) {
      TidyClient(h, c, order);
      assert c in Staying(h, order, Subscribers(h, order)) <==> HasRoom(h.chans[c]);
    } else if c.order != order {
      assert Subscribers(h', c.order) == Subscribers(h, c.order);
    }
  }

  /** Removing a client leaves it unregistered and its channel closed, once, and every other client as it was. */
  lemma RemovedAt(h: HubState, c: Client, d: Client)
    requires Tidy(h) && d in h.chans
    ensures var h' := Removed(h, c);
            && d in h'.chans && !IsRegistered(h', c)
            && (d != c ==> h'.chans[d] == h.chans[d] && (IsRegistered(h', d) <==> IsRegistered(h, d)))
            && (d == c && IsRegistered(h, c) ==>
                  && !h'.chans[c].open && h'.chans[c].closes == 1
                  && h'.chans[c].buffer == h.chans[c].buffer && h'.chans[c].received == h.chans[c].received)
            && (d == c && !IsRegistered(h, c) ==> h' == h)
  {
    if IsRegistered(h, c) {
      TidyClient(h, c, c.order);
    }
  }

  /** Registering adds one client and changes no channel. */
  lemma RegisteredAt(h: HubState, c: Client, d: Client)
    ensures var h' := Registered(h, c);
            && h'.chans == h.chans && h'.stopped == h.stopped
            && (IsRegistered(h', d) <==> IsRegistered(h, d) || d == c)
  {
  }

  /** The stop closes every registered client's channel and leaves no one registered. */
  lemma StoppedAt(h: HubState, c: Client)
    requires Tidy(h) && c in h.chans
    ensures var h' := Stopped(h);
            && c in h'.chans && h'.stopped && !IsRegistered(h', c)
            && h'.chans[c].open == (h.chans[c].open && !IsRegistered(h, c))
            && h'.chans[c].closes == (if h'.chans[c].open then 0 else 1)
            && h'.chans[c].buffer == h.chans[c].buffer && h'.chans[c].received == h.chans[c].received
  {
    if IsRegistered(h, c) {
      TidyClient(h, c, c.order);
    }
  }

  // ---------------------------------------------------------------- the event loop's handlers

  predicate ServedRight(h: HubState, chans: map<Client, Chan>, order: int, p: nat, c: Client)
    requires c in h.chans && c in chans
  {
    var was, now := h.chans[c], chans[c];
    if c !in Subscribers(h, order) then now == was
    else
      && now.received == was.received
      && if |was.buffer| < 32 then now.buffer == was.buffer + [p] && now.open
         else now.buffer == was.buffer && !now.open
  }

  class EventLoop {
    var clients: map<int, set<Client>>
    var chans: map<Client, Chan>
    var stopped: bool

    function View(): HubState
      reads this
    {
      HubState(clients, chans, stopped, false)
    }

    constructor ()
      ensures View() == Empty
    {
      clients, chans, stopped := map[], map[], false;
    }

    method OnRegister(c: Client)
      requires c in chans
      modifies `clients
      ensures View() == Registered(old(View()), c)
    {
      if c.order !in clients {
        clients := clients[c.order := {}];
      }
      clients := clients[c.order := clients[c.order] + {c}];
    }

    /** Idempotent: a client that is not registered any more is left alone, so its channel is closed once. */
    method Remove(c: Client)
      requires Tidy(View())
      modifies `clients, `chans
      ensures View() == Removed(old(View()), c)
      ensures !(c.order in clients && c in clients[c.order])
      ensures forall d :: d in old(chans) && d != c ==> d in chans && chans[d] == old(chans)[d]
      ensures c.order in old(clients) && c in old(clients)[c.order] ==>
                c in chans && !chans[c].open && chans[c].closes == old(chans)[c].closes + 1
    {
      if !(c.order in clients && c in clients[c.order]) {
        return;
      }
      TidyClient(View(), c, c.order);
      clients := clients[c.order := clients[c.order] - {c}];
      chans := chans[c := Shut(chans[c])];
      if clients[c.order] == {} {
        clients := clients - {c.order};
      }
    }

    /**
     Serves the order's subscribers one by one in an arbitrary order; the outcome does not
     depend on it. Reports whether anyone was served.
     */
    method OnOutbound(order: int, p: nat) returns (delivered: bool)
      requires Tidy(View())
      modifies `clients, `chans
      ensures Tidy(View()) && View() == FannedOut(old(View()), order, p)
      ensures delivered <==> Reachable(old(View()), order)
      ensures delivered <==>
                order in old(clients) &&
                exists c :: c in old(clients)[order] && c in old(chans) && |old(chans)[c].buffer| < 32
      ensures forall c :: c in old(chans) && !(order in old(clients) && c in old(clients)[order]) ==>
                c in chans && chans[c] == old(chans)[c]
      ensures forall c :: c in old(chans) && order in old(clients) && c in old(clients)[order] ==>
                && c in chans && chans[c].received == old(chans)[c].received
                && if |old(chans)[c].buffer| < 32
                   then chans[c].buffer == old(chans)[c].buffer + [p] && chans[c].open
                   else chans[c].buffer == old(chans)[c].buffer && !chans[c].open
    {
      ghost var h := View();
      delivered := false;
      var todo := if order in clients then clients[order] else {};
      ghost var done: set<Client> := {};
      FannedNone(h, order, p);
      while todo != {}
        invariant todo + done == Subscribers(h, order) && todo !! done
        invariant stopped == h.stopped && View() == FannedTo(h, order, p, done)
        invariant delivered <==> exists c :: c in done && c in h.chans && HasRoom(h.chans[c])
        decreases todo
      {
        var c :| c in todo;
        TidyClient(h, c, order);
        FannedTidy(h, order, p, done);
        if HasRoom(h.chans[c]) {
          DeliverPush(h, order, p, done, c);
        } else {
          DeliverRemove(h, order, p, done, c);
        }
        if |chans[c].buffer| < SEND_BUFFER {
          chans := chans[c := Pushed(chans[c], p)];
          delivered := true;
        } else {
          Remove(c);
        }
        todo, done := todo - {c}, done + {c};
      }
      FannedTidy(h, order, p, done);
      assert done == Subscribers(h, order);
      forall c | c in h.chans ensures c in chans && ServedRight(h, chans, order, p, c) {
        FannedAt(h, order, p, c);
      }
    }

    /** Closes every registered client's channel and forgets them all. */
    method OnStop()
      requires Tidy(View())
      modifies `clients, `chans, `stopped
      ensures View() == Stopped(old(View()))
    {
      ghost var h := View();
      var todo := set c | c in chans && c.order in clients && c in clients[c.order];
      ghost var done: set<Client> := {};
      while todo != {}
        invariant clients == h.clients && stopped == h.stopped && todo !! done
        invariant forall c :: c in todo + done <==> c in h.chans && IsRegistered(h, c)
        invariant chans == map c | c in h.chans :: if c in done then Shut(h.chans[c]) else h.chans[c]
        decreases todo
      {
        var c :| c in todo;
        assert c in todo + done;
        chans := chans[c := Shut(chans[c])];
        todo, done := todo - {c}, done + {c};
      }
      clients, stopped := map[], true;
      assert forall c :: c in done <==> c in todo + done;
    }

    /**
     Hands a payload to the loop and waits for its verdict. gone: the hub had stopped before
     the loop took the request; cut: it stopped before the verdict was read. True is never a
     lie, and false is exact unless the hub stopped.
     */
    method Notify(order: int, p: nat, gone: bool, cut: bool) returns (ok: bool)
      requires Tidy(View())
      modifies `clients, `chans
      ensures ok ==> exists c ::
                && c in old(chans) && order in old(clients) && c in old(clients)[order]
                && c in chans && chans[c].buffer == old(chans)[c].buffer + [p]
      ensures ok ==> exists c ::
                && c in old(chans) && c in Subscribers(old(View()), order) && c in chans
                && chans[c] == Pushed(old(chans)[c], p)
      ensures !gone && !cut ==> (ok <==> Reachable(old(View()), order))
      ensures !gone && !cut ==>
                (ok <==> order in old(clients) &&
                         exists c :: c in old(clients)[order] && c in old(chans) && |old(chans)[c].buffer| < 32)
      ensures gone || cut ==> !ok
      ensures gone ==> View() == old(View())
      ensures !gone ==> View() == FannedOut(old(View()), order, p)
    {
      if gone {
        return false;
      }
      ok := OnOutbound(order, p);
      if ok {
        ghost var c :| c in Subscribers(old(View()), order) && c in old(chans) && HasRoom(old(chans)[c]);
        assert chans[c] == Pushed(old(chans)[c], p);
      }
      if cut {
        ok := false;
      }
    }
  }

  function Registered(h: HubState, c: Client): HubState {
    h.(clients := h.clients[c.order := Subscribers(h, c.order) + {c}])
  }

  function Stopped(h: HubState): HubState {
    h.(chans := map c | c in h.chans :: if IsRegistered(h, c) then Shut(h.chans[c]) else h.chans[c],
       clients := map[], stopped := true,
       panicked := h.panicked || exists c :: c in h.chans && IsRegistered(h, c) && !h.chans[c].open)
  }
}
