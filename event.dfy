/**
 * The per-thread event handler (src/event.rs): a table of callbacks keyed
 * by (window handle, item index) together with the sending end of the
 * channel on which window procedures report destroyed windows.
 */
module Event {
  import opened Win32
  import opened Errors
  import opened Channels

  /**
   * A boxed user closure. Its code is foreign to this model, so a callback
   * is an opaque token; what invoking it returns is supplied by the caller
   * of `Run`.
   */
  datatype Callback = Callback(tag: nat)

  class Handler {
    var events: map<Key, Callback>
    /** The sending end; the same object is the receiving end `new` returns. */
    const sender: Channel<Hwnd>

    /** `Handler::new`: an empty table and a fresh, open channel. */
    constructor ()
      ensures events == map[]
      ensures fresh(sender)
      ensures sender.queue == [] && sender.senderAlive && sender.receiverAlive
    {
      events := map[];
      sender := new Channel();
    }

    /**
     * `insert`: the key always ends up mapped to the new callback. If the
     * key was taken, the old callback is overwritten and the error
     * `CallbackFound` names the key.
     */
    method Insert(hwnd: Hwnd, index: u32, f: Callback) returns (r: Result<()>)
      modifies this`events
      ensures events == old(events)[(hwnd, index) := f]
      ensures (hwnd, index) in old(events) ==> r == Err(CallbackFound((hwnd, index)))
      ensures (hwnd, index) !in old(events) ==> r == Ok(())
    {
      var previous := (hwnd, index) in events;
      events := events[(hwnd, index) := f];
      if previous {
        r := Err(CallbackFound((hwnd, index)));
      } else {
        r := Ok(());
      }
    }

    /**
     * `remove`: a present key is removed and nothing else changes; an
     * absent key leaves the table as it was and gives `NoCallbackFound`.
     */
    method Remove(hwnd: Hwnd, index: u32) returns (r: Result<()>)
      modifies this`events
      ensures events == old(events) - {(hwnd, index)}
      ensures (hwnd, index) in old(events) ==> r == Ok(())
      ensures (hwnd, index) !in old(events) ==> r == Err(NoCallbackFound((hwnd, index))) && events == old(events)
    {
      if (hwnd, index) in events {
        events := events - {(hwnd, index)};
        r := Ok(());
      } else {
        r := Err(NoCallbackFound((hwnd, index)));
      }
    }

    /**
     * `run`: a present key gives exactly what its callback returns; an
     * absent key gives `NoCallbackFound`. The table is never changed.
     */
    method Run(hwnd: Hwnd, index: u32, invoke: Callback -> Result<()>) returns (r: Result<()>)
      ensures (hwnd, index) in events ==> r == invoke(events[(hwnd, index)])
      ensures (hwnd, index) !in events ==> r == Err(NoCallbackFound((hwnd, index)))
    {
      if (hwnd, index) in events {
        r := invoke(events[(hwnd, index)]);
      } else {
        r := Err(NoCallbackFound((hwnd, index)));
      }
    }

    /** Inserting, removing and then running one key finds no callback. */
    method InsertRemoveRun(hwnd: Hwnd, index: u32, f: Callback, invoke: Callback -> Result<()>)
      returns (r: Result<()>)
      modifies this`events
      ensures r == Err(NoCallbackFound((hwnd, index)))
      ensures events == old(events) - {(hwnd, index)}
    {
      var inserted := Insert(hwnd, index, f);
      var removed := Remove(hwnd, index);
      assert removed == Ok(());
      r := Run(hwnd, index, invoke);
    }
  }

  /**
   * The thread-local slot `EVENT_HANDLER` through which a window procedure,
   * which has no state of its own, reaches the handler.
   */
  class EventStash {
    var handler: Handler?

    constructor ()
      ensures handler == null
    {
      handler := null;
    }
  }
}
