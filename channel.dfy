/**
 * The bounded multi-producer, single-consumer channel that carries events
 * from the log watcher and the Telegram listener to the bus. It is created
 * with room for 16 events. Where the real channel makes a task wait (a send
 * into a full buffer, a receive from an empty open one) the model returns a
 * status saying so, and the caller stops there.
 */
module Mpsc {
  import opened Events

  /** The capacity given to the channel when the bridge starts. */
  const Capacity: nat := 16

  datatype SendStatus =
    | Sent
    | Full          // the producer would wait for the bus to free a slot
    | Disconnected  // the receiving side is gone; `send` fails

  datatype RecvStatus =
    | Received(event: Event)
    | Pending       // empty while producers remain: the bus would wait
    | Closed        // empty and every producer is gone: `recv` yields nothing

  class Channel {
    var buf: seq<Event>
    var receiverAlive: bool
    var sendersAlive: bool

    /** The channel never holds more than its capacity. */
    ghost predicate Valid()
      reads this
    {
      |buf| <= Capacity
    }

    constructor ()
      ensures Valid()
      ensures buf == [] && receiverAlive && sendersAlive
    {
      buf := [];
      receiverAlive := true;
      sendersAlive := true;
    }

    /** Offers `e` at the back of the queue. */
    method Send(e: Event) returns (s: SendStatus)
      requires Valid()
      modifies this`buf
      ensures Valid()
      ensures s == (if !receiverAlive then Disconnected
                    else if |old(buf)| == Capacity then Full
                    else Sent)
      ensures buf == if s == Sent then old(buf) + [e] else old(buf)
    {
      if !receiverAlive {
        s := Disconnected;
      } else if |buf| == Capacity {
        s := Full;
      } else {
        buf := buf + [e];
        s := Sent;
      }
    }

    /** Takes the event at the front of the queue, first in first out. */
    method Recv() returns (r: RecvStatus)
      requires Valid()
      modifies this`buf
      ensures Valid()
      ensures old(buf) != [] ==> r == Received(old(buf)[0]) && buf == old(buf)[1..]
      ensures old(buf) == [] ==> buf == [] && r == (if sendersAlive then Pending else Closed)
    {
      if buf != [] {
        r := Received(buf[0]);
        buf := buf[1..];
      } else if sendersAlive {
        r := Pending;
      } else {
        r := Closed;
      }
    }

    /** Every producer has dropped its sender. */
    method CloseSenders()
      modifies this`sendersAlive
      ensures !sendersAlive
    {
      sendersAlive := false;
    }

    /** The bus has dropped its receiver. */
    method DropReceiver()
      modifies this`receiverAlive
      ensures !receiverAlive
    {
      receiverAlive := false;
    }
  }
}
