/** The payment gateway: charges a key at most once, and replays the first result afterwards. */
module Gateway {
  import opened Fulfillment

  class FakeGateway {
    var charged: map<string, string>

    constructor ()
      ensures charged == map[]
    {
      charged := map[];
    }

    /**
     cancelled: the caller's context ended during the simulated latency. fails: the draw that
     decides a transient failure. newTxn: the new transaction id. A key once charged answers the
     same id for ever; an error of either kind charges nothing.
     */
    method Charge(key: string, cancelled: bool, fails: bool, newTxn: string) returns (r: Reply)
      modifies this
      ensures r == TimedOut <==> cancelled
      ensures r == Transient <==> !cancelled && key !in old(charged) && fails
      ensures r.Accepted? ==> key in charged && charged[key] == r.txn
      ensures !r.Accepted? ==> charged == old(charged)
      ensures key in old(charged) && !cancelled ==> r == Accepted(old(charged)[key])
      ensures !cancelled && key !in old(charged) && !fails ==> r == Accepted(newTxn)
      ensures charged.Keys == old(charged).Keys + (if r.Accepted? then {key} else {})
      ensures ChargesGrow(old(charged), charged)
    {
      if cancelled {
        return TimedOut;
      }
      if key in charged {
        return Accepted(charged[key]);
      }
      if fails {
        return Transient;
      }
      charged := charged[key := newTxn];
      return Accepted(newTxn);
    }
  }
}
