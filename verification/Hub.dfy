/** The server-sent-events hub: a set of bounded channels and a broadcast that never blocks. */
module Hub {
  import opened Choice

  /** Capacity of a subscriber's channel. */
  const CAPACITY: nat := 8

  /** A non-blocking send: kept while there is room, dropped otherwise. */
  function Offered<T>(buf: seq<T>, msg: T): seq<T> {
    if |buf| < CAPACITY then buf + [msg] else buf
  }

  class Channel {
    var buf: seq<string>
    var closed: bool

    constructor ()
      ensures buf == [] && !closed
    {
      buf, closed := [], false;
    }
  }

  class Broadcaster {
    var subs: set<Channel>

    /** Only open channels are registered, and none holds more than its capacity. */
    ghost predicate Valid()
      reads this, subs
    {
      forall ch | ch in subs :: !ch.closed && |ch.buf| <= CAPACITY
    }

    constructor ()
      ensures Valid() && subs == {}
    {
      subs := {};
    }

    method Subscribe() returns (ch: Channel)
      requires Valid()
      modifies this
      ensures Valid() && fresh(ch) && subs == old(subs) + {ch} && ch.buf == []
    {
      ch := new Channel();
      subs := subs + {ch};
    }

    /** Closes a channel the first time only. */
    method Unsubscribe(ch: Channel)
      requires Valid()
      modifies this, ch`closed
      ensures Valid() && subs == old(subs) - {ch}
      ensures ch.closed <==> old(ch.closed) || ch in old(subs)
    {
      if ch in subs {
        subs := subs - {ch};
        ch.closed := true;
      }
    }

    /** Offers msg to every subscriber, in whatever order the map yields them; nothing is sent on a closed channel. */
    method Broadcast(msg: string)
      requires Valid()
      modifies subs
      ensures Valid()
      ensures forall ch | ch in subs :: ch.buf == Offered(old(ch.buf), msg) && ch.closed == old(ch.closed)
      ensures forall ch | ch in subs ::
        old(ch.buf) <= ch.buf && ch.buf[|old(ch.buf)|..] == if |old(ch.buf)| < 8 then [msg] else []
    {
      var todo := subs;
      while todo != {}
        invariant todo <= subs
        invariant forall ch | ch in subs :: ch.closed == old(ch.closed)
        invariant forall ch | ch in todo :: ch.buf == old(ch.buf)
        invariant forall ch | ch in subs && ch !in todo :: ch.buf == Offered(old(ch.buf), msg)
        decreases |todo|
      {
        var ch := Any(todo);
        if |ch.buf| < CAPACITY {
          assert !ch.closed;
          ch.buf := ch.buf + [msg];
        }
        todo := todo - {ch};
      }
    }
  }
}
