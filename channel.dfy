/**
 * A single-producer, single-consumer channel as `std::sync::mpsc` gives
 * it: a FIFO queue plus whether each end is still alive. A value sent
 * while the receiver lives is queued; a value sent after the receiver is
 * gone is refused. `TryRecv` never blocks: it hands out the oldest value
 * if there is one (even when the sender is already gone), and otherwise
 * reports `Empty` or, once the sender is gone, `Disconnected`.
 */
module Channels {

  datatype TryRecvResult<T> = Received(value: T) | Empty | Disconnected

  class Channel<T> {
    var queue: seq<T>
    var senderAlive: bool
    var receiverAlive: bool

    constructor ()
      ensures queue == [] && senderAlive && receiverAlive
    {
      queue := [];
      senderAlive := true;
      receiverAlive := true;
    }

    method Send(v: T) returns (ok: bool)
      modifies this`queue
      ensures ok == receiverAlive
      ensures queue == if ok then old(queue) + [v] else old(queue)
    {
      ok := receiverAlive;
      if ok {
        queue := queue + [v];
      }
    }

    method TryRecv() returns (r: TryRecvResult<T>)
      modifies this`queue
      ensures old(queue) != [] ==> r == Received(old(queue)[0]) && queue == old(queue)[1..]
      ensures old(queue) == [] ==> queue == [] && r == if senderAlive then Empty else Disconnected
    {
      if queue != [] {
        r := Received(queue[0]);
        queue := queue[1..];
      } else if senderAlive {
        r := Empty;
      } else {
        r := Disconnected;
      }
    }

    /** The sending end is dropped. */
    method DropSender()
      modifies this`senderAlive
      ensures !senderAlive
    {
      senderAlive := false;
    }
  }
}
