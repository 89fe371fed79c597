// The dispatch topic: internal/queue, as far as delivery goes.
module Queue {
  import opened Basics

  // What became of a published message: sent, sent although the caller saw an
  // error, or not sent.
  datatype Delivery = Sent | SentUnknown | NotSent

  // The dispatch topic: messages in flight, delivered to any consumer.
  class Broker {
    var bag: multiset<RunId>

    constructor ()
      ensures bag == multiset{}
    {
      bag := multiset{};
    }

    // Publisher.Dispatch
    method Dispatch(id: RunId, d: Delivery) returns (ok: bool)
      modifies this
      ensures ok <==> d.Sent?
      ensures bag == if d.NotSent? then old(bag) else old(bag) + multiset{id}
    {
      if !d.NotSent? {
        bag := bag + multiset{id};
      }
      ok := d.Sent?;
    }
  }
}
