/**
 * The SSE hub (pkg/sse/hub.go) as an object: a set of buffered channels that
 * Subscribe, Unsubscribe and Publish change in place, one call at a time.
 * HubProtocol treats the same operations step by step under the RWMutex.
 */
module Hub {

  /** `make(chan string, 10)`. */
  const CAPACITY: nat := 10

  /** A non-blocking send: kept when there is room, dropped otherwise. */
  function Offer<E>(buf: seq<E>, e: E): seq<E> {
    if |buf| < CAPACITY then buf + [e] else buf
  }

  class Channel {
    var buf: seq<string>
    var closed: bool

    constructor ()
      ensures buf == [] && !closed
    {
      buf, closed := [], false;
    }

    /** `select { case ch <- e: default: }`; sending on a closed channel would panic. */
    method TrySend(e: string)
      requires !closed
      modifies this`buf
      ensures buf == if |old(buf)| < 10 then old(buf) + [e] else old(buf)
    {
      if |buf| < CAPACITY {
        buf := buf + [e];
      }
    }

    /** `close(ch)`; closing twice would panic. */
    method Close()
      requires !closed
      modifies this`closed
      ensures closed
    {
      closed := true;
    }
  }

  class Hub {
    var clients: set<Channel>

    /** Registered channels are open and within capacity. */
    ghost predicate Valid()
      reads this, clients
    {
      forall ch :: ch in clients ==> !ch.closed && |ch.buf| <= CAPACITY
    }

    constructor ()
      ensures Valid() && clients == {}
    {
      clients := {};
    }

    method Subscribe() returns (ch: Channel)
      requires Valid()
      modifies this
      ensures Valid() && fresh(ch)
      ensures clients == old(clients) + {ch} && ch.buf == []
    {
      ch := new Channel();
      clients := clients + {ch};
    }

    /** Closes a registered channel once; any other channel is left alone. */
    method Unsubscribe(ch: Channel)
      requires Valid()
      modifies this, ch`closed
      ensures Valid() && clients == old(clients) - {ch}
      ensures ch.closed == (old(ch.closed) || ch in old(clients))
    {
      if ch in clients {
        clients := clients - {ch};
        ch.Close();
      }
    }

    /**
     * One send per client, in whatever order the map yields them: the event is appended
     * to the buffer of each client with fewer than ten unread, and a client with ten
     * keeps what it has.
     */
    method Publish(event: string)
      requires Valid()
      modifies clients`buf
      ensures Valid() && clients == old(clients)
      ensures forall ch :: ch in clients ==>
                ch.buf == if |old(ch.buf)| < 10 then old(ch.buf) + [event] else old(ch.buf)
    {
      var todo := clients;
      while todo != {}
        invariant todo <= clients && Valid()
        invariant forall ch :: ch in clients ==> ch.buf == if ch in todo then old(ch.buf) else Offer(old(ch.buf), event)
        decreases todo
      {
        var ch :| ch in todo;
        ch.TrySend(event);
        todo := todo - {ch};
      }
    }
  }
}
