/**
 * The main window loop (src/app.rs). `App` owns a registry of windows keyed
 * by their handles and the receiving end of the handler's channel. The
 * window procedure never touches the registry: on `WM_DESTROY` it only
 * sends the handle on the channel. Each turn of the message loop takes at
 * most one handle off the channel, removes that window, quits once no
 * window is left, and otherwise dispatches the message it fetched.
 *
 * The operating system is an oracle: the message loop is given the
 * sequence of `GetMessageW` outcomes, each with the handles whose windows
 * receive `WM_DESTROY` while the fetched message is dispatched.
 */
module AppLoop {
  import opened Win32
  import opened Numerals
  import opened Errors
  import opened Channels
  import opened Event

  /** A window record (src/window.rs). */
  datatype Window = Window(hwnd: Hwnd, hmenu: Option<Hmenu>)

  /** `Window::new` given what `CreateWindowExW` returned. */
  function NewWindow(created: Hwnd): (r: Result<Window>)
    ensures r.Ok? <==> !created.IsNull()
    ensures r.Ok? ==> r.value.hwnd == created && r.value.hmenu == None
    ensures r.Err? ==> Display(r.error) == "Error creating window"
  {
    if created.IsNull() then Err(FromString("Error creating window"))
    else Ok(Window(created, None))
  }

  /** Every window is filed under its own handle. */
  ghost predicate Keyed(windows: map<Hwnd, Window>)
  {
    forall h :: h in windows ==> windows[h].hwnd == h
  }

  /** `small` is `big` with some keys taken out and nothing added or changed. */
  ghost predicate Shrunk(small: map<Hwnd, Window>, big: map<Hwnd, Window>)
  {
    forall h :: h in small ==> h in big && small[h] == big[h]
  }

  // ---------------------------------------------------------------------
  // The window procedure
  // ---------------------------------------------------------------------

  /** The messages the window procedure answers itself with 0. */
  predicate HandledHere(message: u32)
  {
    message == WM_DESTROY || message == WM_PAINT || message == WM_CHAR || message == WM_LBUTTONUP
  }

  /**
   * `window_proc`: on `WM_DESTROY` the handle is sent to the handler found
   * in the thread-local slot, if there is one; the send's failure is
   * ignored. It answers 0 to the messages it handles and passes every other
   * one to `DefWindowProcW`, whose answer is `defaultResult`.
   */
  method WindowProc(stash: EventStash, hwnd: Hwnd, message: u32, defaultResult: int) returns (r: int)
    modifies if stash.handler == null then {} else {stash.handler.sender}
    ensures r == if HandledHere(message) then 0 else defaultResult
    ensures stash.handler != null ==>
      var ch := stash.handler.sender;
      && ch.senderAlive == old(ch.senderAlive)
      && ch.receiverAlive == old(ch.receiverAlive)
      && ch.queue == if message == WM_DESTROY && ch.receiverAlive then old(ch.queue) + [hwnd] else old(ch.queue)
  {
    if message == WM_DESTROY {
      var handler := stash.handler;
      if handler != null {
        var _ := handler.sender.Send(hwnd);
      }
      return 0;
    } else if message == WM_PAINT || message == WM_CHAR || message == WM_LBUTTONUP {
      return 0;
    }
    return defaultResult;
  }

  // ---------------------------------------------------------------------
  // The loop, as a function of its state
  // ---------------------------------------------------------------------

  /** A window message as `GetMessageW` fills it in. */
  datatype Msg = Msg(hwnd: Hwnd, message: u32)

  /** What one call of `GetMessageW` gives: 0, -1 or a message. */
  datatype Fetch =
    | QuitMessage
    | FetchFailed(lastError: u32)
    /** `destroyed`: windows that receive `WM_DESTROY` while `msg` is dispatched. */
    | Fetched(msg: Msg, destroyed: seq<Hwnd>)

  /** How `run` ends: it returns, it panics, or it is still looping. */
  datatype Exit = Returned(result: Result<()>) | Panicked | Pending

  datatype Verdict = Next | Done(exit: Exit)

  /** What the loop owns plus the channel and the thread's quit request. */
  datatype PumpState = PumpState(
    windows: map<Hwnd, Window>,
    queue: seq<Hwnd>,
    senderAlive: bool,
    quitPosted: bool)

  /** The handles the window procedure sends while `msg` is dispatched. */
  function Notified(msg: Msg, destroyed: seq<Hwnd>): seq<Hwnd>
  {
    (if msg.message == WM_DESTROY then [msg.hwnd] else []) + destroyed
  }

  const GetMessageErrorPrefix: string := "error on GetMessage: "

  /** One turn of the loop in `App::run`. */
  function PumpStep(s: PumpState, fetch: Fetch): (PumpState, Verdict)
  {
    match fetch
    case QuitMessage => (s, Done(Returned(Ok(()))))
    case FetchFailed(code) =>
      (s, Done(Returned(Err(FromString(GetMessageErrorPrefix + Decimal(code as nat))))))
    case Fetched(msg, destroyed) =>
      if s.queue == [] && !s.senderAlive then (s, Done(Panicked))
      else
        var s1 := if s.queue == [] then s
                  else s.(windows := s.windows - {s.queue[0]}, queue := s.queue[1..]);
        if |s1.windows| == 0 then (s1.(quitPosted := true), Done(Returned(Ok(()))))
        else (s1.(queue := s1.queue + Notified(msg, destroyed)), Next)
  }

  /** The loop over a finite supply of `GetMessageW` outcomes. */
  function PumpRun(s: PumpState, fetches: seq<Fetch>): (PumpState, Exit)
    decreases |fetches|
  {
    if fetches == [] then (s, Pending)
    else
      var (s', v) := PumpStep(s, fetches[0]);
      if v.Done? then (s', v.exit) else PumpRun(s', fetches[1..])
  }

  // ---------------------------------------------------------------------
  // Properties of the loop
  // ---------------------------------------------------------------------

  /**
   * One turn removes at most the handle at the head of the channel and adds
   * no window; it takes a handle only when it fetched a message.
   */
  lemma StepRemovesOnlyHead(s: PumpState, fetch: Fetch)
    ensures var s' := PumpStep(s, fetch).0;
      && Shrunk(s'.windows, s.windows)
      && (fetch.Fetched? && s.queue != [] ==> s'.windows == s.windows - {s.queue[0]} && s'.queue[..|s.queue| - 1] == s.queue[1..])
      && (!fetch.Fetched? || s.queue == [] ==> s'.windows == s.windows)
  {
    if fetch.Fetched? && s.queue != [] {
      var s1 := s.(windows := s.windows - {s.queue[0]}, queue := s.queue[1..]);
      var s' := PumpStep(s, fetch).0;
      assert s'.windows == s1.windows;
      assert s'.queue[..|s.queue| - 1] == s1.queue;
    }
  }

  /** `GetMessageW` returning 0 ends the loop with `Ok`; -1 with a system error. */
  lemma StepOnQuitOrFailure(s: PumpState, code: u32)
    ensures PumpStep(s, QuitMessage) == (s, Done(Returned(Ok(()))))
    ensures var (s', v) := PumpStep(s, FetchFailed(code));
      && s' == s && v.Done? && v.exit.Returned? && v.exit.result.Err?
      && Display(v.exit.result.error) == GetMessageErrorPrefix + Decimal(code as nat)
  {
  }

  /**
   * When the registry is empty after the channel is read, the loop posts
   * its own quit request and stops without dispatching: nothing is added
   * to the channel. Otherwise it dispatches and carries on.
   */
  lemma StepQuitsWhenEmpty(s: PumpState, msg: Msg, destroyed: seq<Hwnd>)
    requires s.queue != [] || s.senderAlive
    ensures var (s', v) := PumpStep(s, Fetched(msg, destroyed));
      if |s'.windows| == 0 then
        v == Done(Returned(Ok(()))) && s'.quitPosted && |s'.queue| == |s.queue| - (if s.queue == [] then 0 else 1)
      else
        && v == Next && s'.quitPosted == s.quitPosted
        && s'.queue == (if s.queue == [] then [] else s.queue[1..]) + Notified(msg, destroyed)
  {
  }

  /** An empty channel whose sender is gone makes the loop panic. */
  lemma StepPanicsWhenDisconnected(s: PumpState, msg: Msg, destroyed: seq<Hwnd>)
    requires s.queue == [] && !s.senderAlive
    ensures PumpStep(s, Fetched(msg, destroyed)) == (s, Done(Panicked))
  {
  }

  /** Over a whole run the registry only shrinks, so it stays keyed by handle. */
  lemma {:induction false} RunOnlyShrinks(s: PumpState, fetches: seq<Fetch>)
    ensures Shrunk(PumpRun(s, fetches).0.windows, s.windows)
    ensures Keyed(s.windows) ==> Keyed(PumpRun(s, fetches).0.windows)
    decreases |fetches|
  {
    if fetches != [] {
      var (s', v) := PumpStep(s, fetches[0]);
      StepRemovesOnlyHead(s, fetches[0]);
      if v.Next? {
        RunOnlyShrinks(s', fetches[1..]);
      }
    }
  }

  /**
   * A handle at position `p` of the channel is out of the registry once the
   * loop has fetched `p + 1` messages, whatever else those messages do.
   */
  lemma {:induction false} RemovedWithin(s: PumpState, fetches: seq<Fetch>, p: nat)
    requires p < |s.queue| && p < |fetches|
    requires forall i :: 0 <= i <= p ==> fetches[i].Fetched?
    ensures s.queue[p] !in PumpRun(s, fetches).0.windows
    decreases p
  {
    var h := s.queue[p];
    var (s', v) := PumpStep(s, fetches[0]);
    assert s.queue[0] !in s'.windows by {
      StepRemovesOnlyHead(s, fetches[0]);
    }
    if v.Done? {
      assert |s'.windows| == 0 || h !in s'.windows;
    } else if p == 0 {
      RunOnlyShrinks(s', fetches[1..]);
    } else {
      assert s'.queue[p - 1] == h;
      RemovedWithin(s', fetches[1..], p - 1);
    }
  }

  /**
   * Two windows, both closed: after two turns the registry is empty, the
   * loop has posted its own quit request and returned `Ok`.
   */
  lemma TwoWindowsClosed(a: Window, b: Window, m1: Msg, m2: Msg)
    requires a.hwnd != b.hwnd
    ensures var s := PumpState(map[a.hwnd := a, b.hwnd := b], [a.hwnd, b.hwnd], true, false);
      PumpRun(s, [Fetched(m1, []), Fetched(m2, [])])
        == (PumpState(map[], Notified(m1, []), true, true), Returned(Ok(())))
  {
    var s := PumpState(map[a.hwnd := a, b.hwnd := b], [a.hwnd, b.hwnd], true, false);
    var w1 := map[b.hwnd := b];
    assert s.windows - {a.hwnd} == w1;
    assert |w1| == 1;
    var s1 := PumpState(w1, [b.hwnd] + Notified(m1, []), true, false);
    assert PumpStep(s, Fetched(m1, [])) == (s1, Next);
    assert w1 - {b.hwnd} == map[];
  }

  // ---------------------------------------------------------------------
  // The application object
  // ---------------------------------------------------------------------

  class App {
    var windows: map<Hwnd, Window>
    /** The receiving end of the handler's channel. */
    const receiver: Channel<Hwnd>
    /** The thread-local slot holding the handler, which owns the sending end. */
    const stash: EventStash
    /** Whether this thread has called `PostQuitMessage`. */
    var quitPosted: bool

    ghost predicate Valid()
      reads this, stash, receiver
    {
      && stash.handler != null
      && stash.handler.sender == receiver
      && receiver.receiverAlive
      && Keyed(windows)
    }

    ghost function State(): PumpState
      reads this, receiver
    {
      PumpState(windows, receiver.queue, receiver.senderAlive, quitPosted)
    }

    constructor Assemble(windows: map<Hwnd, Window>, receiver: Channel<Hwnd>, stash: EventStash)
      ensures this.windows == windows && this.receiver == receiver && this.stash == stash
      ensures !quitPosted
    {
      this.windows := windows;
      this.receiver := receiver;
      this.stash := stash;
      quitPosted := false;
    }

    /**
     * `App::new`: registers the window class (`classAtom` is what
     * `RegisterClassW` returned), puts a new handler in the thread-local
     * slot, creates two windows (`first` and `second` are what
     * `CreateWindowExW` returned) and files each under its own handle.
     */
    static method New(stash: EventStash, classAtom: nat, first: Hwnd, second: Hwnd) returns (r: Result<App>)
      modifies stash
      ensures classAtom == 0 ==> r == Err(SysError("Error creating window class")) && stash.handler == old(stash.handler)
      ensures classAtom != 0 ==> stash.handler != null && fresh(stash.handler)
      ensures classAtom != 0 && first.IsNull() ==> r == Err(SysError("Error creating window"))
      ensures classAtom != 0 && !first.IsNull() && second.IsNull() ==> r == Err(SysError("Error creating window"))
      ensures r.Ok? <==> classAtom != 0 && !first.IsNull() && !second.IsNull()
      ensures r.Ok? ==>
        && fresh(r.value)
        && r.value.stash == stash
        && r.value.Valid()
        && r.value.windows == map[first := Window(first, None)][second := Window(second, None)]
        && r.value.State() == PumpState(r.value.windows, [], true, false)
    {
      if classAtom == 0 {
        return Err(FromString("Error creating window class"));
      }
      var handler := new Handler();
      var receiver := handler.sender;
      stash.handler := handler;
      var windows: map<Hwnd, Window> := map[];
      var w1 := NewWindow(first);
      if w1.Err? {
        return Err(w1.error);
      }
      windows := windows[w1.value.hwnd := w1.value];
      var w2 := NewWindow(second);
      if w2.Err? {
        return Err(w2.error);
      }
      windows := windows[w2.value.hwnd := w2.value];
      var app := new App.Assemble(windows, receiver, stash);
      return Ok(app);
    }

    /** Dispatching `msg`: the window procedure runs for it and for every window it destroys. */
    method Dispatch(msg: Msg, destroyed: seq<Hwnd>)
      requires Valid()
      modifies receiver
      ensures Valid()
      ensures receiver.queue == old(receiver.queue) + Notified(msg, destroyed)
      ensures receiver.senderAlive == old(receiver.senderAlive)
    {
      var _ := WindowProc(stash, msg.hwnd, msg.message, 0);
      var i := 0;
      while i < |destroyed|
        invariant 0 <= i <= |destroyed|
        invariant Valid()
        invariant receiver.senderAlive == old(receiver.senderAlive)
        invariant receiver.queue == old(receiver.queue) + Notified(msg, destroyed[..i])
      {
        var _ := WindowProc(stash, destroyed[i], WM_DESTROY, 0);
        assert destroyed[..i + 1] == destroyed[..i] + [destroyed[i]];
        i := i + 1;
      }
      assert destroyed[..i] == destroyed;
    }

    /** One turn of the loop in `run`. */
    method Step(fetch: Fetch) returns (v: Verdict)
      requires Valid()
      modifies this, receiver
      ensures Valid()
      ensures (State(), v) == PumpStep(old(State()), fetch)
    {
      match fetch {
        case QuitMessage =>
          return Done(Returned(Ok(())));
        case FetchFailed(code) =>
          return Done(Returned(Err(FromString(GetMessageErrorPrefix + Decimal(code as nat)))));
        case Fetched(msg, destroyed) =>
          ghost var s0 := State();
          ghost var s1 := if s0.queue == [] then s0
                          else s0.(windows := s0.windows - {s0.queue[0]}, queue := s0.queue[1..]);
          var received := receiver.TryRecv();
          match received {
            case Received(hwnd) =>
              windows := windows - {hwnd};
            case Empty =>
            case Disconnected =>
              return Done(Panicked);
          }
          assert State() == s1;
          if |windows| == 0 {
            quitPosted := true;
            return Done(Returned(Ok(())));
          }
          Dispatch(msg, destroyed);
          assert State() == s1.(queue := s1.queue + Notified(msg, destroyed));
          return Next;
      }
    }

    /**
     * `App::run` over the given `GetMessageW` outcomes: the final state and
     * the way the loop ends are those of `PumpRun`.
     */
    method Run(fetches: seq<Fetch>) returns (exit: Exit)
      requires Valid()
      modifies this, receiver
      ensures Valid()
      ensures (State(), exit) == PumpRun(old(State()), fetches)
    {
      var i := 0;
      while i < |fetches|
        invariant 0 <= i <= |fetches|
        invariant Valid()
        invariant PumpRun(State(), fetches[i..]) == PumpRun(old(State()), fetches)
      {
        assert fetches[i..][0] == fetches[i] && fetches[i..][1..] == fetches[i + 1..];
        var v := Step(fetches[i]);
        if v.Done? {
          return v.exit;
        }
        i := i + 1;
      }
      return Pending;
    }
  }
}
