/**
 * A Go `chan string` seen as a FIFO queue of values sent and not yet
 * received, and a closed flag. Sending never blocks in the sequential model
 * (the queue stands for the senders waiting at the rendezvous).
 */
module Channels {

  class Channel {
    var queue: seq<string>
    var closed: bool

    /** `make(chan string)`: open and empty. */
    constructor ()
      ensures queue == [] && !closed
    {
      queue, closed := [], false;
    }

    /** `ch <- x`; sending on a closed channel panics in Go. */
    method Send(x: string)
      requires !closed
      modifies this
      ensures queue == old(queue) + [x] && !closed
    {
      queue := queue + [x];
    }

    /**
     * `x, ok := <-ch`. A value is received while one is waiting; once the
     * channel is closed and drained, the receive yields "" and false. The
     * receive that would block (empty and open) is not admitted.
     */
    method Receive() returns (x: string, ok: bool)
      requires |queue| > 0 || closed
      modifies this
      ensures ok <==> |old(queue)| > 0
      ensures ok ==> x == old(queue)[0] && queue == old(queue)[1..]
      ensures !ok ==> x == "" && queue == old(queue)
      ensures closed == old(closed)
    {
      if |queue| > 0 {
        x, ok := queue[0], true;
        queue := queue[1..];
      } else {
        x, ok := "", false;
      }
    }

    /**
     * `close(ch)`; closing twice panics in Go, and so does every sender still
     * blocked at the rendezvous, so the model closes only a drained channel.
     */
    method Close()
      requires !closed && queue == []
      modifies this
      ensures closed && queue == []
    {
      closed := true;
    }
  }
}
