# luna: window and tray bookkeeping, modelled in Dafny

luna is a small Rust library for Win32 windows and a system-tray icon. Most
of it is calls into the Windows API. Behind those calls are three pieces of
bookkeeping, and this project models them:

- the per-thread **event handler** (`src/event.rs`). It is a table of
  callbacks keyed by (window handle, item index), plus the sending end of
  a channel.
- the **main window loop** (`src/app.rs`). `App::new` builds a registry of
  windows keyed by their handles. In `App::run`, each turn of the message
  loop takes at most one destroyed window's handle off the channel and
  drops that window from the registry. The loop quits once the registry
  is empty. The window procedure's `WM_DESTROY` branch only sends the
  handle on the channel.
- the **tray application** (`src/tray.rs`). A counter hands out menu-item
  indices, and separators use one too. A table holds one callback per
  item. `update` polls the tray thread's event channel and runs the
  chosen item's callback with a remove, run, re-insert dispatch. `quit`
  joins the tray thread at most once. `set_tooltip` copies at most 128
  bytes into a zeroed 128-slot buffer.

It also models the error type with its conversions and texts
(`src/error.rs`) and the rectangle record (`src/geometry.rs`).

Layout:

- `win32.dfy`: fixed-width integers, handles, message constants, the
  `u32`→`i32` cast.
- `numerals.dfy`: decimal and hexadecimal rendering, as Rust's `{}` and a
  pointer's `{:?}` print them. It also has a parser that reads them back.
- `errors.dfy`: `Error`, `From`, `Display`.
- `geometry.dfy`: `Rectangle`.
- `channel.dfy`: an mpsc channel. It is a FIFO queue plus whether each
  end is alive.
- `event.dfy`: `Handler` and the thread-local slot that holds it.
- `app.dfy`: the window procedure, `App::new`, and `App::run`.
  `PumpStep` and `PumpRun` are the loop written as functions of its
  state. The `App` class's methods are proved to follow them.
- `tray.dfy`: the tray. `TrayState` and the `…Spec` functions are the
  application as functions of its state. The lemmas about them carry the
  properties. The classes `TrayWindow` and `Application` are proved to
  follow those functions.

Calls into the operating system are oracles:

- `RegisterClassW`, `CreateWindowExW`, `InsertMenuItemW`,
  `Shell_NotifyIconW`, `SetMenuInfo`: the caller passes what the call
  returned, plus the code `GetLastError` would give.
- `GetMessageW`: `App::run` is given the sequence of outcomes. Each
  outcome is 0, -1, or a message together with the windows that receive
  `WM_DESTROY` while that message is dispatched.

A tray callback gets the application itself and may call back into it. So
a callback is modelled as a script of the calls it makes (add an item, add
a separator, quit, or `update` again) plus the result it returns. This lets
the model capture a callback that changes the very table it is being
dispatched from. That includes a nested `update` that runs, and may drop,
another callback. An
event-handler callback gets the `App`. Its effect is not modelled: `run` is
given the result the callback returns.

## Model

| member | source | states |
|---|---|---|
| Event.Handler.constructor | src/event.rs:31-37 | a new handler has an empty table and a fresh, open channel |
| Event.Handler.Insert | src/event.rs:39-47 | afterwards the key maps to the new callback whether or not it was taken; a taken key gives `CallbackFound` naming that key (the old callback is overwritten), a free one gives `Ok` |
| Event.Handler.Remove | src/event.rs:49-54 | a present key is removed and nothing else changes, giving `Ok`; an absent key gives `NoCallbackFound` naming it and the table is unchanged |
| Event.Handler.Run | src/event.rs:56-61 | a present key gives exactly what its callback returns; an absent key gives `NoCallbackFound` naming it; the table is not modified |
| Event.EventStash.constructor | src/event.rs:12 | the thread-local handler slot starts empty |
| Event.Handler.InsertRemoveRun | src/event.rs:39-61 | insert, then remove, then run of one key fails with `NoCallbackFound` for that key, and the table is the old one without the key |
| AppLoop.WindowProc | src/app.rs:46-96 | `WM_DESTROY` appends the handle to the handler's channel (if a handler is installed and the receiver lives) and touches nothing else; handled messages answer 0, others answer what `DefWindowProcW` gives |
| AppLoop.NewWindow | src/window.rs:30-57 | a non-null handle gives a window with that handle and no menu; a null one gives the system error "Error creating window" |
| AppLoop.App.New | src/app.rs:97-146 | class registration failure and window creation failures give their system errors; on success the handler is installed and each window is filed under its own handle, with an empty open channel |
| AppLoop.App.Dispatch | src/app.rs:195-196 | dispatching appends to the channel exactly the handles of the windows destroyed meanwhile, in order |
| AppLoop.App.Step | src/app.rs:164-197 | one turn of the loop changes the state and ends as `PumpStep` says |
| AppLoop.App.Run | src/app.rs:149-201 | the loop's final state and outcome are those of `PumpRun` over the given `GetMessageW` outcomes |
| AppLoop.StepRemovesOnlyHead | src/app.rs:176-187 | a turn removes at most the handle at the head of the channel, only when a message was fetched, and never adds or changes a window; removing an absent handle changes nothing |
| AppLoop.StepOnQuitOrFailure | src/app.rs:165-172 | `GetMessageW` returning 0 ends the run with `Ok`; -1 ends it with the system error "error on GetMessage: " and the code, state unchanged |
| AppLoop.StepQuitsWhenEmpty | src/app.rs:189-196 | if the registry is empty after the channel is read, the loop posts quit and stops without dispatching; otherwise it goes on (`Next`), and the channel is what the read left plus exactly the handles the dispatch of `msg` sends |
| AppLoop.StepPanicsWhenDisconnected | src/app.rs:185-186 | an empty channel whose sender is gone makes the loop panic, state unchanged |
| AppLoop.RunOnlyShrinks | src/app.rs:149-197 | over a whole run no window is added or changed, so a registry keyed by handle stays keyed by handle |
| AppLoop.RemovedWithin | src/app.rs:176-178 | a handle at position p of the channel is out of the registry after at most p + 1 fetched messages |
| AppLoop.TwoWindowsClosed | src/app.rs:164-200 | two windows whose handles are both queued: after two turns the registry is empty, quit is posted and the run returns `Ok` |
| Errors.FromExt | src/error.rs:41-45 | the foreign error is wrapped unchanged and its text shows after "Error: " |
| Errors.FromString | src/error.rs:47-51 | the string becomes a `SysError` whose text is exactly that string |
| Errors.FromCode | src/error.rs:53-57 | the code becomes a `SysError` whose text is "System error: " followed by the code's canonical decimal digits: digits only, no leading zero, reading back as the code |
| Errors.FromCodeInjective | src/error.rs:53-57 | different codes give different errors |
| Errors.DisplayOfPlainVariants | src/error.rs:32-35 | `SysError(s)` displays as `s`, `Unimplemented` as "unimplemented" |
| Errors.KeyText | src/error.rs:27-30 | a key's text is the handle in hexadecimal starting with "0x", then the index, ending with ")" |
| Errors.KeyTextInjective | src/error.rs:27-30 | different keys have different texts |
| Errors.Display | src/error.rs:23-39 | a table error's text is its kind's prefix followed by its key's text; `Unimplemented` shows "unimplemented"; a `SysError` shows its message; a foreign error shows "Error: " and then its own text |
| Errors.DisplayIdentifiesKey | src/error.rs:26-31 | a table error's text determines its key, and `CallbackFound` and `NoCallbackFound` texts never coincide |
| Numerals.Decimal | src/error.rs:55 | `{}` of an unsigned number is a non-empty run of decimal digits with no leading zero that reads back as the number |
| Numerals.PointerDebug | src/error.rs:27 | `{:?}` of a pointer is "0x" followed by hexadecimal digits with no leading zero that read back as the address |
| Numerals.NumeralInjective | src/error.rs:55 | different numbers never share a rendering, in any base from 2 to 16 |
| Numerals.NumeralUnique | src/error.rs:55 | a digit string with no leading zero is exactly the rendering of the number it reads as, so the rendering is the only canonical text of a number |
| Geometry.New | src/geometry.rs:10-29 | `x()`, `y()`, `w()`, `h()` of a new rectangle give back the four arguments |
| Geometry.RebuildFromAccessors | src/geometry.rs:10-29 | rebuilding a rectangle from its four accessors gives the same rectangle |
| Tray.TrayEventFrom | src/tray.rs:418-422 | the event id has the same 32 bits as the `i32`: equal modulo 2^32, and equal for non-negative values |
| Tray.TrayEventKeepsId | src/tray.rs:171-173 | casting a `u32` menu id to `i32` and building the event from it gives back the id |
| Tray.MenuCommandEvent | src/tray.rs:168-176 | the tray window reports a chosen menu item exactly when its id is not -1, and the report carries that id |
| Tray.WindowInfoNew | src/tray.rs:101-164 | the tray window's setup succeeds exactly when class registration, window creation, menu setup and icon registration all do, and then returns that window and menu |
| Tray.NotifyIconData.constructor | src/tray.rs:45-68 | the record has the window, id 1 and the flag; the modelled scalar fields `uCallbackMessage`, `hIcon`, `dwState`, `dwStateMask` and `dwInfoFlags` are 0, and `szTip`, `szInfo`, `szInfoTitle` are fresh zeroed buffers of 128, 256 and 64 units |
| Tray.TrayWindow.constructor | src/tray.rs:271-274 | a new tray window holds the setup's window information, the tray thread's join handle and the event sender, with an empty menu and no join yet |
| Tray.TrayWindow.AddMenuEntry | src/tray.rs:307-322 | a string item with id idx is inserted at position idx, or the error "Error inserting menu item: " with the code and an unchanged menu |
| Tray.TrayWindow.AddMenuSeparator | src/tray.rs:324-338 | a separator is inserted at position idx, or the error "Error inserting separator: " with the code and an unchanged menu |
| Tray.TrayWindow.Quit | src/tray.rs:282-289 | the join handle is taken; the thread is joined (and its exit drops the event sender) only if the handle was still there |
| Tray.TrayWindow.SetTooltip | src/tray.rs:291-305 | more than 128 bytes is refused before the shell is called; otherwise the buffer passed to the shell holds byte i at slot i and 0 in every later slot, and the shell's failure gives "Error setting tooltip: " with the code |
| Tray.TooltipReadBack | src/tray.rs:291-298 | a tooltip without NUL bytes is read back from the buffer exactly; the buffer has a terminating NUL only when the tooltip is shorter than 128 bytes |
| Tray.StartedIsValid | src/tray.rs:463-474 | a new application has index 0, an empty table, and satisfies the bookkeeping invariant |
| Tray.Application.New | src/tray.rs:463-474 | a failed tray-window setup is returned as is; otherwise the application starts in the state `Started` with the invariant |
| Tray.AddMenuItemHandsOutFreshIndex | src/tray.rs:476-488 | a successful insert returns the old counter, above every key in the table, files the callback under it, advances the counter by one and keeps the invariant; a failed insert changes nothing and returns an `OsError` |
| Tray.AddMenuSeparatorUsesIndex | src/tray.rs:490-497 | a separator consumes an index and files no callback under it; a failed insert changes nothing |
| Tray.Application.AddMenuItem | src/tray.rs:476-488 | the application's new state and result are those of `AddMenuItemSpec`, and the invariant is kept |
| Tray.Application.AddMenuSeparator | src/tray.rs:490-497 | the application's new state and result are those of `AddMenuSeparatorSpec`, and the invariant is kept |
| Tray.QuitJoinsOnce | src/tray.rs:282-289 | quit joins the thread at most once: quitting twice is quitting once, and afterwards the handle is gone and the sender dropped |
| Tray.Application.Quit | src/tray.rs:511-513 | the application's new state is `QuitSpec` of the old one |
| Tray.GrowsTrans | src/tray.rs:515-532 | growth composes: two growth steps in a row are one growth step |
| Tray.RunActionsGrows | src/tray.rs:440-452 | each of the four calls a callback can make (add an item, add a separator, quit, a nested `update`), and so whatever a callback does through the application keeps the invariant; the counter and menu only grow; events leave the channel only from its front; a filed callback is never replaced; new ones go only at indices handed out meanwhile; a filed callback disappears only if it failed when a nested `update` ran it for one of the events taken |
| Tray.Application.RunCallback | src/tray.rs:520 | running a callback's calls, nested `update`s included, leaves the application in the state `RunActions` gives |
| Tray.DispatchGrows | src/tray.rs:518-522 | one dispatch grows the state: the chosen key is out during the call and back afterwards only if its callback succeeded |
| Tray.NestedUpdateDropsFailedCallback | src/tray.rs:515-532 | with callback 0 calling `update` and callback 1 failing, and both events pending, one `update` consumes both events, files 0 again, drops 1 and returns `Ok` |
| Tray.UpdateWithoutCallback | src/tray.rs:515-526 | with nothing pending, or for an item without a callback, `update` returns `Ok` and only the channel changes |
| Tray.UpdateDispatches | src/tray.rs:518-522 | the chosen callback runs with its key absent from the table; on success the key maps to it again on top of what it did, on failure the error is returned as `Error` and the key stays out |
| Tray.UpdateOnDisconnect | src/tray.rs:527-530 | a drained, disconnected channel makes `update` quit and return `Ok`; the thread is never joined twice |
| Tray.UpdateKeepsInv | src/tray.rs:515-532 | `update` keeps the bookkeeping invariant in every case, and grows the state as a callback does |
| Tray.ReentrantAddGetsFreshIndex | src/tray.rs:476-522 | a callback that adds an item while it runs gets an index above every earlier one, and the table then holds both callbacks |
| Tray.TrayScenario | src/tray.rs:476-532 | items "A", a separator and "B" get 0, 1, 2; choosing 2 runs B's callback, which adds "C" at 3, and B is filed again; a further `update` with nothing pending changes nothing |
| Tray.Application.Update | src/tray.rs:515-532 | the application's new state and result are those of `UpdateSpec`, and the invariant is kept, including that the application still holds the receiving end of its channel |

## Left out

- Calls into Windows are oracles, as listed above. This covers the
  `GetMessageW`, `DispatchMessageW`, `DefWindowProcW` and
  `Shell_NotifyIconW` results and `GetLastError` codes. `ShowWindow`,
  `PostMessageW`, `TrackPopupMenu` and `GetCursorPos` have no result the
  bookkeeping reads, so they are not modelled.
- `GetMenuItemID` is an oracle: `Tray.MenuCommandEvent` takes the id it
  returned.
- Menu-item identity: the model does not prove that the id the popup menu
  reports for a position is the index handed out for that item.
- `WS::to_string`, `to_os_string` and the `encode_wide` conversion come
  from the standard library, whose behaviour is not visible here. Item
  names are therefore taken as UTF-16 sequences.
- Thread spawning, the rendezvous in the tray `Window::new`, and the tray
  thread's own message loop are concurrency. `Application.New` takes the
  setup's outcome and a join handle. The tray thread's exit is modelled
  only as dropping the event sender when it is joined.
- The thread-local `WININFO_STASH` is not modelled. `EVENT_HANDLER` is
  modelled only as the slot through which the window procedure reaches
  the handler.
- Painting (`WM_PAINT`), `DestroyWindow` on Escape (`WM_CHAR`), the tray
  window's `WM_USER` popup branch, and logging. These are Windows calls
  only. Windows destroyed while a message is dispatched come in as the
  `destroyed` part of each `GetMessageW` outcome.
- `Tray.NotifyIconData.constructor`: `cbSize`, the union `u`, `guidItem` and
  `hBalloonIcon` are not modelled. `cbSize` holds the record's byte size,
  which the model has no layout for. The other three are zero and no code
  here reads them.
- A tray callback's result is fixed by its script. In the source a
  callback computes its result, possibly from the results of its own
  calls; here the script says up front whether it succeeds. A Rust
  `FnMut` callback can also keep state between runs, so it may succeed
  once and fail the next time; state a callback captures is not
  modelled, so every run of a callback here makes the same calls and
  ends with the same outcome, including a second run of the same
  callback by a nested `update` within one top-level `update`.
- `MII::mii`: the menu-item record is not built. A menu is modelled as
  its sequence of entries.
- `set_icon`, `shutdown`, and the `Drop` impls that call `shutdown`. These
  are shell calls whose results the bookkeeping does not read.
- The tray `Error`'s `Display` is not modelled.
- `From<BoxedError>` for the tray error appears only as the `Error`
  variant that `update` returns.
- `Application::set_tooltip` only forwards to `Tray.TrayWindow.SetTooltip`.
- `Tray.Application.AddMenuItem`: `menu_idx` is a `u32`, but here it is an
  unbounded counter. Overflow after 2^32 items is not modelled. It panics
  in debug builds and wraps in release builds.
- `Event.Handler.Run`: the callback's effect on the `App` it is given is
  not modelled. Only its result is.
- `AppLoop.App.New`: the window class atom and the two window handles are
  parameters. Window titles are not modelled.
- A tooltip of exactly 128 bytes is accepted. It fills `szTip`
  completely and leaves no terminating NUL (see `Tray.TooltipReadBack`).
  What the shell does with such a buffer is outside the model.
