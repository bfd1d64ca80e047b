/** Recording a notification and pushing it, as it is written: persist, notify the hub, mark the row. */
module Notifications {
  import opened Orders
  import opened Hub
  import HubRuns
  import opened Subscription

  /** The status the row ends with, from the hub as it was and from what failed on the way. */
  function Verdict(h: HubState, order: int, gone: bool, cut: bool, markFault: bool): Status {
    if markFault then NotePending
    else if !gone && !cut && Reachable(h, order) then NoteSent
    else NoteFailed
  }

  class NotificationService {
    const hub: EventLoop
    var rows: seq<Row>

    constructor (hub: EventLoop)
      ensures this.hub == hub && rows == []
    {
      this.hub := hub;
      rows := [];
    }

    /**
     A row that cannot be recorded is not pushed. Otherwise exactly one row is added and its
     payload offered to every subscriber; it is marked sent only if one of them was queued it.
     */
    method Send(order: int, createFault: bool, gone: bool, cut: bool, markFault: bool)
      requires Tidy(hub.View())
      modifies this, hub`clients, hub`chans
      ensures createFault ==> rows == old(rows) && hub.View() == old(hub.View())
      ensures !createFault ==> rows == old(rows) + [Row(order, Verdict(old(hub.View()), order, gone, cut, markFault))]
      ensures !createFault ==>
                hub.View() == if gone then old(hub.View()) else FannedOut(old(hub.View()), order, |old(rows)|)
      ensures !createFault ==>
                && |rows| == |old(rows)| + 1 && rows[..|old(rows)|] == old(rows) && rows[|old(rows)|].order == order
                && (rows[|old(rows)|].status == NotePending <==> markFault)
                && (rows[|old(rows)|].status == NoteSent <==>
                      !markFault && !gone && !cut && order in old(hub.clients) &&
                      exists c :: c in old(hub.clients)[order] && c in old(hub.chans)
                          && |old(hub.chans)[c].buffer| < 32)
      ensures !createFault && rows[|old(rows)|].status == NoteSent ==>
                exists c ::
                  c in old(hub.chans) && c in hub.chans
                      && hub.chans[c].buffer == old(hub.chans)[c].buffer + [|old(rows)|]
    {
      if createFault {
        return;
      }
      var n := |rows|;
      rows := rows + [Row(order, NotePending)];
      var delivered := hub.Notify(order, n, gone, cut);
      if !markFault {
        rows := rows[n := rows[n].(status := if delivered then NoteSent else NoteFailed)];
      }
    }
  }

  function Offer(h: HubState, order: int, n: nat): HubState {
    if h.stopped then h else FannedOut(h, order, n)
  }

  /** A tidy hub never panics on a delivery. */
  lemma OutboundIsFanOut(h: HubState, order: int, n: nat)
    requires Tidy(h) && !h.stopped
    ensures HubRuns.Apply(h, HubRuns.Outbound(order, n)) == FannedOut(h, order, n)
  {
    assert forall c :: c in Subscribers(h, order) ==> h.chans[c].open;
  }

  lemma PushStep(h: HubState, rows: seq<Row>, senders: seq<Sender>, conns: map<Client, Conn>, n: nat, cut: bool,
                 rest: seq<Action>)
    requires Tidy(h) && n < |rows| && n < |senders| && senders[n] == ToPush
    ensures Exec(true, State(h, rows, senders, conns), [Push(n, cut)] + rest) ==
            Exec(true, State(Offer(h, rows[n].order, n), rows,
                             senders[n := ToMark(!h.stopped && !cut && Reachable(h, rows[n].order))], conns), rest)
  {
    var s := State(h, rows, senders, conns);
    ExecCons(true, s, Push(n, cut), rest);
    if !h.stopped {
      OutboundIsFanOut(h, rows[n].order, n);
    }
  }

  lemma MarkStep(h: HubState, rows: seq<Row>, senders: seq<Sender>, conns: map<Client, Conn>, n: nat, err: bool)
    requires !h.panicked && n < |rows| && n < |senders| && senders[n].ToMark?
    ensures Exec(true, State(h, rows, senders, conns), [Mark(n, err)] + []) ==
            Some(State(h, if err then rows
                       else rows[n := rows[n].(status := if senders[n].delivered then NoteSent else NoteFailed)],
                       senders[n := SenderDone], conns))
  {
    ExecCons(true, State(h, rows, senders, conns), Mark(n, err), []);
  }

  /** Run without interruption, Send is the three steps of the interleaved protocol. */
  lemma SendIsThreeSteps(h: HubState, rows: seq<Row>, senders: seq<Sender>, conns: map<Client, Conn>, order: int,
                         cut: bool, err: bool)
    requires Tidy(h) && |rows| == |senders|
    ensures var n := |rows|;
            Exec(true, State(h, rows, senders, conns), [Persist(order)] + ([Push(n, cut)] + ([Mark(n, err)] + []))) ==
            Some(State(Offer(h, order, n), rows + [Row(order, Verdict(h, order, h.stopped, cut, err))],
                       senders + [SenderDone], conns))
  {
    var n, tail := |rows|, [Mark(|rows|, err)] + [];
    ExecCons(true, State(h, rows, senders, conns), Persist(order), [Push(n, cut)] + tail);
    var rows1, senders1 := rows + [Row(order, NotePending)], senders + [ToPush];
    PushStep(h, rows1, senders1, conns, n, cut, tail);
    var senders2 := senders1[n := ToMark(!h.stopped && !cut && Reachable(h, order))];
    FannedTidy(h, order, n, Subscribers(h, order));
    MarkStep(Offer(h, order, n), rows1, senders2, conns, n, err);
    assert senders2[n := SenderDone] == senders + [SenderDone];
    var status := if Verdict(h, order, h.stopped, cut, false) == NoteSent then NoteSent else NoteFailed;
    assert rows1[n := Row(order, status)] == rows + [Row(order, status)];
  }
}
