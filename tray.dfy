/**
 * The system-tray application (src/tray.rs). A hidden window on its own
 * thread owns a popup menu; `Application` hands out menu indices from a
 * counter (separators use one too), keeps a callback per menu item, and
 * polls a channel on which the tray thread reports selected items.
 *
 * A callback receives the application itself and may call back into it,
 * so a callback here is a script of the calls it makes on the application
 * (adding items or separators, quitting, polling with `update` again) and
 * the result it then returns.
 * Operating-system calls are oracles: each caller passes whether the call
 * succeeded and the code `GetLastError` would report.
 */
module Tray {
  import opened Win32
  import opened Numerals
  import opened Channels

  // ---------------------------------------------------------------------
  // Errors, events, callbacks
  // ---------------------------------------------------------------------

  /** A boxed foreign error; only its `Display` text is visible here. */
  datatype BoxedError = BoxedError(description: string)

  /** The two ways `try_recv` can fail. */
  datatype RecvError = RecvEmpty | RecvDisconnected

  /** The tray's own error type. */
  datatype TrayError =
    | OsError(message: string)
    | NotImplementedError
    | UnknownError
    | Error(inner: BoxedError)
    | TryRecvError(recv: RecvError)

  datatype TrayResult<T> = Ok(value: T) | Err(error: TrayError)

  /** The only thing that crosses from the tray thread: a menu item id. */
  datatype TrayEvent = TrayEvent(id: u32)

  /** `TrayEvent::from(i32)`: the id is the same 32 bits read as unsigned. */
  function TrayEventFrom(v: i32): (e: TrayEvent)
    ensures (e.id as int - v as int) % 0x1_0000_0000 == 0
    ensures 0 <= v ==> e.id as int == v as int
  {
    TrayEvent(if 0 <= v then v as int as u32 else (v as int + 0x1_0000_0000) as u32)
  }

  /**
   * The window procedure reads a menu item id as `u32`, casts it to `i32`
   * and builds the event from that: the event carries the id unchanged.
   */
  lemma TrayEventKeepsId(id: u32)
    ensures TrayEventFrom(U32AsI32(id)).id == id
  {
  }

  /**
   * The tray window's `WM_MENUCOMMAND` branch: the chosen item's id, read
   * as `i32`, is reported unless it is -1 (no such item).
   */
  function MenuCommandEvent(itemId: u32): (e: Option<TrayEvent>)
    ensures e.Some? <==> itemId != 0xFFFF_FFFF
    ensures e.Some? ==> e.value.id == itemId
  {
    var id := U32AsI32(itemId);
    if id == -1 then None else Some(TrayEventFrom(id))
  }

  datatype CallbackOutcome = Succeeds | Fails(error: BoxedError)

  /** What a callback does with the application, and what it then returns. */
  datatype Callback = Callback(actions: seq<Action>, outcome: CallbackOutcome)

  /**
   * One call a callback makes on the application it is given. A nested
   * `update` is made for its effect; its result is not looked at.
   */
  datatype Action =
    | AddItem(name: seq<u16>, callback: Callback, inserted: bool, lastError: u32)
    | AddSeparator(inserted: bool, lastError: u32)
    | QuitTray
    | UpdateTray

  /** An item of the popup menu, as the menu holds it. */
  datatype MenuEntry = StringItem(id: nat, text: seq<u16>) | Separator

  /** `InsertMenuItemW` by position: before `pos`, or at the end. */
  function InsertAt(menu: seq<MenuEntry>, pos: nat, e: MenuEntry): (r: seq<MenuEntry>)
    ensures |r| == |menu| + 1
    ensures pos >= |menu| ==> r == menu + [e]
  {
    if pos >= |menu| then menu + [e] else menu[..pos] + [e] + menu[pos..]
  }

  // ---------------------------------------------------------------------
  // The application, as a function of its state
  // ---------------------------------------------------------------------

  /**
   * Everything the tray's operations read or change: the index counter,
   * the callback table, the popup menu, whether the tray thread's join
   * handle is still held, how many times it was joined, and the event
   * channel.
   */
  datatype TrayState = TrayState(
    menuIdx: nat,
    callbacks: map<nat, Callback>,
    menu: seq<MenuEntry>,
    running: bool,
    joins: nat,
    queue: seq<TrayEvent>,
    senderAlive: bool)

  /**
   * What the bookkeeping keeps true: the menu has one entry per index
   * handed out, each string item carries its own position as its id, every
   * callback sits at the index of a string item, and the thread is joined
   * at most once, never while its handle is still held.
   */
  ghost predicate Inv(s: TrayState)
  {
    && |s.menu| == s.menuIdx
    && (forall p :: 0 <= p < |s.menu| && s.menu[p].StringItem? ==> s.menu[p].id == p)
    && (forall k :: k in s.callbacks ==> k < s.menuIdx && s.menu[k].StringItem?)
    && s.joins <= 1
    && (s.running ==> s.joins == 0)
  }

  /** The state right after `Application::new` succeeds. */
  const Started: TrayState := TrayState(0, map[], [], true, 0, [], true)

  const InsertItemError: string := "Error inserting menu item: "
  const InsertSeparatorError: string := "Error inserting separator: "

  /** `add_menu_item`. */
  function AddMenuItemSpec(s: TrayState, name: seq<u16>, f: Callback, inserted: bool, code: u32)
    : (TrayState, TrayResult<nat>)
  {
    var idx := s.menuIdx;
    if !inserted then (s, Err(OsError(InsertItemError + Decimal(code as nat))))
    else
      (s.(menu := InsertAt(s.menu, idx, StringItem(idx, name)),
          callbacks := s.callbacks[idx := f],
          menuIdx := idx + 1),
       Ok(idx))
  }

  /** `add_menu_separator`. */
  function AddMenuSeparatorSpec(s: TrayState, inserted: bool, code: u32): (TrayState, TrayResult<nat>)
  {
    var idx := s.menuIdx;
    if !inserted then (s, Err(OsError(InsertSeparatorError + Decimal(code as nat))))
    else (s.(menu := InsertAt(s.menu, idx, Separator), menuIdx := idx + 1), Ok(idx))
  }

  /**
   * `quit`: the join handle is taken; if it was there the thread is joined,
   * and its exit drops the sending end of the event channel.
   */
  function QuitSpec(s: TrayState): TrayState
  {
    if s.running then s.(running := false, joins := s.joins + 1, senderAlive := false) else s
  }

  /*
   * A callback may call `update` again, which may run further callbacks.
   * This terminates because every nested `update` that runs a callback
   * first takes an event off the channel, and no call adds one.
   */

  function ApplyAction(s: TrayState, a: Action): (s': TrayState)
    ensures |s'.queue| <= |s.queue|
    decreases |s.queue|, 1, 0
  {
    match a
    case AddItem(name, g, inserted, code) => AddMenuItemSpec(s, name, g, inserted, code).0
    case AddSeparator(inserted, code) => AddMenuSeparatorSpec(s, inserted, code).0
    case QuitTray => QuitSpec(s)
    case UpdateTray => UpdateSpec(s).0
  }

  /** A callback's calls, made one after another on the application. */
  function RunActions(s: TrayState, actions: seq<Action>): (s': TrayState)
    ensures |s'.queue| <= |s.queue|
    decreases |s.queue|, 2, |actions|
  {
    if actions == [] then s else RunActions(ApplyAction(s, actions[0]), actions[1..])
  }

  /**
   * `update`: polls the channel once. A selected item with a callback is
   * taken out of the table, run against the application, and put back
   * only if it succeeded; its failure is returned as `Error`. A
   * disconnected channel makes the tray quit.
   */
  function UpdateSpec(s: TrayState): (r: (TrayState, TrayResult<()>))
    ensures |r.0.queue| <= |s.queue|
    decreases |s.queue|, 0, 0
  {
    if s.queue != [] then
      var k := s.queue[0].id as nat;
      var s1 := s.(queue := s.queue[1..]);
      if k in s1.callbacks then
        var f := s1.callbacks[k];
        var s2 := RunActions(s1.(callbacks := s1.callbacks - {k}), f.actions);
        match f.outcome
        case Fails(e) => (s2, Err(Error(e)))
        case Succeeds => (s2.(callbacks := s2.callbacks[k := f]), Ok(()))
      else (s1, Ok(()))
    else if s.senderAlive then (s, Ok(()))
    else (QuitSpec(s), Ok(()))
  }

  // ---------------------------------------------------------------------
  // Properties of the operations
  // ---------------------------------------------------------------------

  /** `new` starts with index 0, no callbacks and an empty menu. */
  lemma StartedIsValid()
    ensures Inv(Started)
    ensures Started.menuIdx == 0 && Started.callbacks == map[]
  {
  }

  /**
   * `add_menu_item` returns the counter's old value, which no callback
   * uses yet, files the callback under it and advances the counter by one;
   * when the menu insert fails nothing changes.
   */
  lemma AddMenuItemHandsOutFreshIndex(s: TrayState, name: seq<u16>, f: Callback, inserted: bool, code: u32)
    requires Inv(s)
    ensures var (s', r) := AddMenuItemSpec(s, name, f, inserted, code);
      && Inv(s')
      && (inserted ==>
            && r == Ok(s.menuIdx)
            && (forall k :: k in s.callbacks ==> k < r.value)
            && s'.callbacks == s.callbacks[r.value := f]
            && s'.menuIdx == s.menuIdx + 1
            && s'.menu == s.menu + [StringItem(r.value, name)])
      && (!inserted ==> s' == s && r.Err? && r.error.OsError?)
  {
  }

  /** `add_menu_separator` uses up an index but files no callback. */
  lemma AddMenuSeparatorUsesIndex(s: TrayState, inserted: bool, code: u32)
    requires Inv(s)
    ensures var (s', r) := AddMenuSeparatorSpec(s, inserted, code);
      && Inv(s')
      && (inserted ==>
            && r == Ok(s.menuIdx)
            && s'.menuIdx == s.menuIdx + 1
            && s'.callbacks == s.callbacks
            && r.value !in s'.callbacks
            && s'.menu == s.menu + [Separator])
      && (!inserted ==> s' == s && r.Err? && r.error.OsError?)
  {
  }

  /** `quit` joins the thread at most once: a second call changes nothing. */
  lemma QuitJoinsOnce(s: TrayState)
    requires Inv(s)
    ensures Inv(QuitSpec(s))
    ensures QuitSpec(QuitSpec(s)) == QuitSpec(s)
    ensures QuitSpec(s).joins == (if s.running then 1 else s.joins)
    ensures !QuitSpec(s).running
    ensures s.running ==> !QuitSpec(s).senderAlive
  {
  }

  /** The menu indices the events in `q` name. */
  function Ids(q: seq<TrayEvent>): set<nat>
  {
    if q == [] then {} else {q[0].id as nat} + Ids(q[1..])
  }

  /** `k` is the id of one of the events taken off the channel between `s` and `s'`. */
  ghost predicate Consumed(s: TrayState, s': TrayState, k: nat)
    requires |s'.queue| <= |s.queue|
  {
    k in Ids(s.queue[..|s.queue| - |s'.queue|])
  }

  lemma {:induction false} IdsAppend(a: seq<TrayEvent>, b: seq<TrayEvent>)
    ensures Ids(a + b) == Ids(a) + Ids(b)
  {
    if a == [] {
      assert a + b == b;
    } else {
      assert (a + b)[0] == a[0] && (a + b)[1..] == a[1..] + b;
      IdsAppend(a[1..], b);
    }
  }

  /**
   * What a callback's calls can do: the counter and the menu only grow,
   * events are only taken off the front of the channel, a callback that
   * stays filed is never replaced, new callbacks sit at indices handed out
   * meanwhile, and a callback disappears only if it failed when a nested
   * `update` ran it for one of the events taken.
   */
  ghost predicate Grows(s: TrayState, s': TrayState)
  {
    && s.menuIdx <= s'.menuIdx
    && s.menu <= s'.menu
    && TailTaken(s, s')
    && KeepsFiled(s, s')
    && FilesFresh(s, s')
    && DropsOnlyFailed(s, s')
  }

  /** Events are only taken off the front of the channel. */
  ghost predicate TailTaken(s: TrayState, s': TrayState)
  {
    |s'.queue| <= |s.queue| && s'.queue == s.queue[|s.queue| - |s'.queue|..]
  }

  /** A callback filed in both states is the same callback. */
  ghost predicate KeepsFiled(s: TrayState, s': TrayState)
  {
    forall k :: k in s.callbacks && k in s'.callbacks ==> s'.callbacks[k] == s.callbacks[k]
  }

  /** A newly filed callback sits at an index handed out in between. */
  ghost predicate FilesFresh(s: TrayState, s': TrayState)
  {
    forall k :: k in s'.callbacks && k !in s.callbacks ==> s.menuIdx <= k < s'.menuIdx
  }

  /** A callback goes missing only if it failed on an event taken in between. */
  ghost predicate DropsOnlyFailed(s: TrayState, s': TrayState)
    requires TailTaken(s, s')
  {
    forall k :: k in s.callbacks && k !in s'.callbacks ==>
      s.callbacks[k].outcome.Fails? && Consumed(s, s', k)
  }

  /** A tail of a tail is a tail. */
  lemma TailOfTail(a: seq<TrayEvent>, b: seq<TrayEvent>, c: seq<TrayEvent>)
    requires |b| <= |a| && b == a[|a| - |b|..]
    requires |c| <= |b| && c == b[|b| - |c|..]
    ensures c == a[|a| - |c|..]
  {
    forall i | 0 <= i < |c| ensures c[i] == a[|a| - |c| + i] {
      assert c[i] == b[|b| - |c| + i];
    }
  }

  lemma GrowsTrans(s1: TrayState, s2: TrayState, s3: TrayState)
    requires Inv(s1) && Grows(s1, s2) && Grows(s2, s3)
    ensures Grows(s1, s3)
  {
    TailOfTail(s1.queue, s2.queue, s3.queue);
    KeepsFiledTrans(s1, s2, s3);
    FilesFreshTrans(s1, s2, s3);
    DropsOnlyFailedTrans(s1, s2, s3);
  }

  lemma KeepsFiledTrans(s1: TrayState, s2: TrayState, s3: TrayState)
    requires forall k :: k in s1.callbacks ==> k < s1.menuIdx
    requires s1.menuIdx <= s2.menuIdx
    requires KeepsFiled(s1, s2) && KeepsFiled(s2, s3) && FilesFresh(s2, s3)
    ensures KeepsFiled(s1, s3)
  {
    forall k | k in s1.callbacks && k in s3.callbacks
      ensures s3.callbacks[k] == s1.callbacks[k]
    {
      assert k < s2.menuIdx;
      assert k in s2.callbacks;
    }
  }

  lemma FilesFreshTrans(s1: TrayState, s2: TrayState, s3: TrayState)
    requires s1.menuIdx <= s2.menuIdx <= s3.menuIdx
    requires FilesFresh(s1, s2) && FilesFresh(s2, s3)
    ensures FilesFresh(s1, s3)
  {
  }

  lemma DropsOnlyFailedTrans(s1: TrayState, s2: TrayState, s3: TrayState)
    requires TailTaken(s1, s2) && TailTaken(s2, s3) && TailTaken(s1, s3)
    requires KeepsFiled(s1, s2)
    requires DropsOnlyFailed(s1, s2) && DropsOnlyFailed(s2, s3)
    ensures DropsOnlyFailed(s1, s3)
  {
    forall k | k in s1.callbacks && k !in s3.callbacks
      ensures s1.callbacks[k].outcome.Fails? && Consumed(s1, s3, k)
    {
      if k in s2.callbacks {
        ConsumedLater(s1, s2, s3, k);
      } else {
        ConsumedEarlier(s1, s2, s3, k);
      }
    }
  }

  lemma ConsumedEarlier(s1: TrayState, s2: TrayState, s3: TrayState, k: nat)
    requires TailTaken(s1, s2) && TailTaken(s2, s3)
    requires Consumed(s1, s2, k)
    ensures Consumed(s1, s3, k)
  {
    var n1, n2, n3 := |s1.queue|, |s2.queue|, |s3.queue|;
    assert s1.queue[..n1 - n3] == s1.queue[..n1 - n2] + s1.queue[n1 - n2..n1 - n3];
    IdsAppend(s1.queue[..n1 - n2], s1.queue[n1 - n2..n1 - n3]);
  }

  lemma ConsumedLater(s1: TrayState, s2: TrayState, s3: TrayState, k: nat)
    requires TailTaken(s1, s2) && TailTaken(s2, s3)
    requires Consumed(s2, s3, k)
    ensures Consumed(s1, s3, k)
  {
    var n1, n2, n3 := |s1.queue|, |s2.queue|, |s3.queue|;
    assert s1.queue[..n1 - n3] == s1.queue[..n1 - n2] + s2.queue[..n2 - n3];
    IdsAppend(s1.queue[..n1 - n2], s2.queue[..n2 - n3]);
  }

  /** A state grows from itself. */
  lemma GrowsRefl(s: TrayState)
    ensures Grows(s, s)
  {
    assert s.queue[|s.queue| - |s.queue|..] == s.queue;
  }

  /** A call that leaves the channel alone and only adds to the table grows the state. */
  lemma FilingGrows(s: TrayState, s': TrayState)
    requires s'.queue == s.queue && s.menuIdx <= s'.menuIdx && s.menu <= s'.menu
    requires forall k :: k in s.callbacks ==> k in s'.callbacks && s'.callbacks[k] == s.callbacks[k]
    requires forall k :: k in s'.callbacks && k !in s.callbacks ==> s.menuIdx <= k < s'.menuIdx
    ensures Grows(s, s')
  {
    assert s.queue[|s.queue| - |s.queue|..] == s.queue;
  }

  /**
   * Whatever a callback does through the application keeps the invariant
   * and the bookkeeping grows: filed callbacks are kept unchanged unless a
   * nested `update` ran one that failed, and new ones are filed only at
   * indices handed out during the call, all above every earlier index.
   */
  lemma {:induction false} RunActionsGrows(s: TrayState, actions: seq<Action>)
    requires Inv(s)
    ensures Inv(RunActions(s, actions)) && Grows(s, RunActions(s, actions))
    decreases |s.queue|, 2, |actions|
  {
    if actions == [] {
      GrowsRefl(s);
    } else {
      var s1 := ApplyAction(s, actions[0]);
      match actions[0] {
        case AddItem(name, g, inserted, code) =>
          AddMenuItemHandsOutFreshIndex(s, name, g, inserted, code);
          FilingGrows(s, s1);
        case AddSeparator(inserted, code) =>
          AddMenuSeparatorUsesIndex(s, inserted, code);
          FilingGrows(s, s1);
        case QuitTray =>
          QuitJoinsOnce(s);
          FilingGrows(s, s1);
        case UpdateTray =>
          UpdateKeepsInv(s);
      }
      RunActionsGrows(s1, actions[1..]);
      GrowsTrans(s, s1, RunActions(s1, actions[1..]));
    }
  }

  /** `update` with nothing pending, or for an item without a callback, changes nothing but the channel. */
  lemma UpdateWithoutCallback(s: TrayState)
    requires s.queue == [] ==> s.senderAlive
    requires s.queue != [] ==> s.queue[0].id as nat !in s.callbacks
    ensures UpdateSpec(s) == (s.(queue := if s.queue == [] then [] else s.queue[1..]), Ok(()))
  {
  }

  /** `update` on a disconnected, drained channel quits and still succeeds. */
  lemma UpdateOnDisconnect(s: TrayState)
    requires Inv(s)
    requires s.queue == [] && !s.senderAlive
    ensures UpdateSpec(s) == (QuitSpec(s), Ok(()))
    ensures UpdateSpec(UpdateSpec(s).0).0.joins <= 1
  {
  }

  /**
   * `update` for an item `k` that has a callback `f`: `f` runs on the
   * table without `k`; on success `k` maps to `f` again on top of what `f`
   * did, on failure the error comes back and `k` stays out of the table.
   */
  lemma UpdateDispatches(s: TrayState)
    requires Inv(s)
    requires s.queue != [] && s.queue[0].id as nat in s.callbacks
    ensures var k := s.queue[0].id as nat;
      var f := s.callbacks[k];
      var during := s.(queue := s.queue[1..], callbacks := s.callbacks - {k});
      var after := RunActions(during, f.actions);
      var (s', r) := UpdateSpec(s);
      && k !in during.callbacks
      && Inv(s')
      && (f.outcome.Succeeds? ==> r == Ok(()) && s' == after.(callbacks := after.callbacks[k := f]))
      && (f.outcome.Fails? ==> r == Err(Error(f.outcome.error)) && s' == after && k !in s'.callbacks)
    decreases |s.queue|, 0, 1
  {
    var k := s.queue[0].id as nat;
    var f := s.callbacks[k];
    var during := s.(queue := s.queue[1..], callbacks := s.callbacks - {k});
    assert Inv(during);
    RunActionsGrows(during, f.actions);
    var after := RunActions(during, f.actions);
    assert after.menu[k] == s.menu[k];
  }

  /**
   * The bookkeeping of one dispatch: `k` is taken off the channel and out
   * of the table, the callback's calls grow the rest to `after`, and `k`
   * is filed again only if the callback succeeded.
   */
  lemma DispatchGrows(s: TrayState, k: nat, f: Callback, after: TrayState, s': TrayState)
    requires Inv(s) && s.queue != [] && k == s.queue[0].id as nat
    requires k in s.callbacks && f == s.callbacks[k]
    requires Grows(s.(queue := s.queue[1..], callbacks := s.callbacks - {k}), after)
    requires f.outcome.Succeeds? ==> s' == after.(callbacks := after.callbacks[k := f])
    requires f.outcome.Fails? ==> s' == after
    ensures Grows(s, s')
  {
    var during := s.(queue := s.queue[1..], callbacks := s.callbacks - {k});
    assert s'.queue == s.queue[|s.queue| - |s'.queue|..] by {
      assert after.queue == during.queue[|during.queue| - |after.queue|..];
    }
    forall j | j in s.callbacks && j !in s'.callbacks
      ensures s.callbacks[j].outcome.Fails? && Consumed(s, s', j)
    {
      var taken := s.queue[..|s.queue| - |s'.queue|];
      assert taken[0] == s.queue[0];
      assert taken[1..] == during.queue[..|during.queue| - |after.queue|];
      if j != k {
        assert j in during.callbacks && j !in after.callbacks;
      }
    }
  }

  /**
   * `update` keeps the invariant in every case, and its effect on the
   * bookkeeping is growth as a callback's is: the only callbacks it drops
   * are ones that failed on an event it took.
   */
  lemma UpdateKeepsInv(s: TrayState)
    requires Inv(s)
    ensures Inv(UpdateSpec(s).0) && Grows(s, UpdateSpec(s).0)
    decreases |s.queue|, 0, 2
  {
    if s.queue != [] {
      var k := s.queue[0].id as nat;
      if k in s.callbacks {
        UpdateDispatches(s);
        var f := s.callbacks[k];
        var during := s.(queue := s.queue[1..], callbacks := s.callbacks - {k});
        RunActionsGrows(during, f.actions);
        DispatchGrows(s, k, f, RunActions(during, f.actions), UpdateSpec(s).0);
      } else {
        assert s.queue[1..] == s.queue[|s.queue| - |s.queue[1..]|..];
      }
    } else if !s.senderAlive {
      QuitJoinsOnce(s);
      GrowsRefl(s);
    } else {
      GrowsRefl(s);
    }
  }

  /**
   * A callback that calls `update` itself can make a callback disappear:
   * with `f` at 0 and a failing `g` at 1, and events for 0 and 1 pending,
   * `update` runs `f`, whose nested `update` runs `g`, which fails and is
   * not filed again; `f` is filed again, and both events are gone.
   */
  lemma NestedUpdateDropsFailedCallback(e: BoxedError)
    ensures
      var f := Callback([UpdateTray], Succeeds);
      var g := Callback([], Fails(e));
      var s := TrayState(2, map[0 := f, 1 := g], [StringItem(0, []), StringItem(1, [])], true, 0,
                         [TrayEvent(0), TrayEvent(1)], true);
      && Inv(s)
      && UpdateSpec(s) == (s.(callbacks := map[0 := f], queue := []), Ok(()))
  {
    var f := Callback([UpdateTray], Succeeds);
    var g := Callback([], Fails(e));
    var s := TrayState(2, map[0 := f, 1 := g], [StringItem(0, []), StringItem(1, [])], true, 0,
                       [TrayEvent(0), TrayEvent(1)], true);
    var during := s.(queue := [TrayEvent(1)], callbacks := map[1 := g]);
    assert s.callbacks - {0} == map[1 := g];
    assert s.queue[1..] == [TrayEvent(1)];
    var inner := during.(queue := [], callbacks := map[]);
    assert during.callbacks - {1} == map[];
    assert UpdateSpec(during) == (inner, Err(Error(e))) by {
      assert during.queue[1..] == [];
      assert RunActions(inner, []) == inner;
    }
    assert RunActions(during, f.actions) == inner by {
      assert f.actions[1..] == [];
      assert ApplyAction(during, UpdateTray) == inner;
      assert RunActions(inner, []) == inner;
    }
    assert inner.callbacks[0 := f] == map[0 := f];
  }

  /**
   * Re-entrancy: a callback that adds a menu item while it runs gets an
   * index above every index handed out before, and the table ends up with
   * both the new callback and, on success, the running one.
   */
  lemma ReentrantAddGetsFreshIndex(s: TrayState, name: seq<u16>, g: Callback, code: u32)
    requires Inv(s)
    requires s.queue != [] && s.queue[0].id as nat in s.callbacks
    requires s.callbacks[s.queue[0].id as nat] == Callback([AddItem(name, g, true, code)], Succeeds)
    ensures UpdateSpec(s).1 == Ok(())
    ensures UpdateSpec(s).0.menuIdx == s.menuIdx + 1
    ensures forall j :: j in s.callbacks ==> j < s.menuIdx
    ensures UpdateSpec(s).0.callbacks == s.callbacks[s.menuIdx := g]
  {
    var k := s.queue[0].id as nat;
    var f := s.callbacks[k];
    var during := s.(queue := s.queue[1..], callbacks := s.callbacks - {k});
    UpdateRunsOneAction(s, AddItem(name, g, true, code));
    assert k < s.menuIdx;
    RefileAfterAdd(s.callbacks, k, s.menuIdx, g);
  }

  /** Taking `k` out, filing `g` under a different index and putting `k` back. */
  lemma RefileAfterAdd(m: map<nat, Callback>, k: nat, idx: nat, g: Callback)
    requires k in m && k != idx
    ensures (m - {k})[idx := g][k := m[k]] == m[idx := g]
  {
  }

  /** `update` running a succeeding callback whose script is the single call `a`. */
  lemma UpdateRunsOneAction(s: TrayState, a: Action)
    requires Inv(s)
    requires s.queue != [] && s.queue[0].id as nat in s.callbacks
    requires s.callbacks[s.queue[0].id as nat] == Callback([a], Succeeds)
    ensures var k := s.queue[0].id as nat;
      var after := ApplyAction(s.(queue := s.queue[1..], callbacks := s.callbacks - {k}), a);
      UpdateSpec(s) == (after.(callbacks := after.callbacks[k := Callback([a], Succeeds)]), Ok(()))
  {
    var k := s.queue[0].id as nat;
    UpdateDispatches(s);
    SingleAction(s.(queue := s.queue[1..], callbacks := s.callbacks - {k}), a);
  }

  lemma SingleAction(s: TrayState, a: Action)
    ensures RunActions(s, [a]) == ApplyAction(s, a)
  {
    assert [a][1..] == [];
  }

  /**
   * The scenario of a tray with items "A", a separator and "B": they get
   * indices 0, 1 and 2; selecting item 2 runs B's callback (which adds "C"
   * at index 3) and puts it back; a further `update` with nothing pending
   * changes nothing.
   */
  lemma TrayScenario(fa: Callback)
    ensures
      var fb := Callback([AddItem([0x43], fa, true, 0)], Succeeds);
      var (s1, r1) := AddMenuItemSpec(Started, [0x41], fa, true, 0);
      var (s2, r2) := AddMenuSeparatorSpec(s1, true, 0);
      var (s3, r3) := AddMenuItemSpec(s2, [0x42], fb, true, 0);
      var (s4, r4) := UpdateSpec(s3.(queue := [TrayEvent(2)]));
      && r1 == Ok(0) && r2 == Ok(1) && r3 == Ok(2)
      && r4 == Ok(())
      && s4.callbacks == map[0 := fa, 2 := fb, 3 := fa]
      && s4.menu == [StringItem(0, [0x41]), Separator, StringItem(2, [0x42]), StringItem(3, [0x43])]
      && UpdateSpec(s4) == (s4, Ok(()))
  {
    var fb := Callback([AddItem([0x43], fa, true, 0)], Succeeds);
    var a := StringItem(0, [0x41]);
    var b := StringItem(2, [0x42]);
    var c := StringItem(3, [0x43]);
    var s1 := TrayState(1, map[0 := fa], [a], true, 0, [], true);
    var t1 := AddMenuItemSpec(Started, [0x41], fa, true, 0);
    assert t1.0.menu == [a] && t1.0.callbacks == map[0 := fa];
    assert t1.0 == s1;
    var s2 := s1.(menu := [a, Separator], menuIdx := 2);
    var t2 := AddMenuSeparatorSpec(s1, true, 0);
    assert t2.0.menu == [a, Separator];
    assert t2.0 == s2;
    var s3 := s2.(menu := [a, Separator, b], menuIdx := 3, callbacks := map[0 := fa, 2 := fb]);
    var t3 := AddMenuItemSpec(s2, [0x42], fb, true, 0);
    assert t3.0.menu == [a, Separator, b] && t3.0.callbacks == map[0 := fa, 2 := fb];
    assert t3.0 == s3;
    var s := s3.(queue := [TrayEvent(2)]);
    var during := s3.(callbacks := map[0 := fa]);
    assert s.(queue := s.queue[1..], callbacks := s.callbacks - {2}) == during by {
      assert s.callbacks - {2} == map[0 := fa];
    }
    var after := during.(menu := [a, Separator, b, c], menuIdx := 4, callbacks := map[0 := fa, 3 := fa]);
    assert RunActions(during, fb.actions) == after by {
      var t := ApplyAction(during, fb.actions[0]);
      assert t.menu == [a, Separator, b, c] && t.callbacks == map[0 := fa, 3 := fa];
      assert t == after;
      assert fb.actions[1..] == [];
    }
    var s4 := after.(callbacks := map[0 := fa, 2 := fb, 3 := fa]);
    assert after.callbacks[2 := fb] == s4.callbacks;
    assert UpdateSpec(s) == (s4, Ok(()));
  }

  // ---------------------------------------------------------------------
  // The tray window: startup, tooltip, quit
  // ---------------------------------------------------------------------

  datatype WindowInfo = WindowInfo(hwnd: Hwnd, hinstance: nat, hmenu: Hmenu)

  /** A thread's join handle. */
  datatype JoinHandle = JoinHandle(thread: nat)

  /**
   * `WindowInfo::new`, run on the tray thread, given what the window class
   * registration, window creation, menu setup and icon registration gave
   * back. The first step that fails decides the error.
   */
  function WindowInfoNew(classAtom: nat, hwnd: Hwnd, hmenu: Hmenu, hinstance: nat,
                         menuInfoSet: bool, iconAdded: bool, code: u32): (r: TrayResult<WindowInfo>)
    ensures r.Ok? <==> classAtom != 0 && !hwnd.IsNull() && menuInfoSet && iconAdded
    ensures r.Ok? ==> r.value == WindowInfo(hwnd, hinstance, hmenu)
  {
    var c := Decimal(code as nat);
    if classAtom == 0 then Err(OsError("Error creating window class: " + c))
    else if hwnd.IsNull() then Err(OsError("Error creating window: " + c))
    else if !menuInfoSet then Err(OsError("Error setting up menu: " + c))
    else if !iconAdded then Err(OsError("Error adding menu icon: " + c))
    else Ok(WindowInfo(hwnd, hinstance, hmenu))
  }

  /** `NOTIFYICONDATAW` as `NID::nid` fills it in: all zero but the window, id and flags. */
  class NotifyIconData {
    var hWnd: Hwnd
    var uID: u32
    var uFlags: bv32
    var uCallbackMessage: u32
    var hIcon: nat
    const szTip: array<u16>
    var dwState: u32
    var dwStateMask: u32
    const szInfo: array<u16>
    const szInfoTitle: array<u16>
    var dwInfoFlags: u32

    constructor (hwnd: Hwnd, flag: bv32)
      ensures hWnd == hwnd && uID == 1 && uFlags == flag
      ensures uCallbackMessage == 0 && hIcon == 0 && dwState == 0 && dwStateMask == 0 && dwInfoFlags == 0
      ensures fresh(szTip) && szTip.Length == 128 && forall i :: 0 <= i < 128 ==> szTip[i] == 0
      ensures fresh(szInfo) && szInfo.Length == 256 && forall i :: 0 <= i < 256 ==> szInfo[i] == 0
      ensures fresh(szInfoTitle) && szInfoTitle.Length == 64 && forall i :: 0 <= i < 64 ==> szInfoTitle[i] == 0
    {
      hWnd := hwnd;
      uID := 1;
      uFlags := flag;
      uCallbackMessage := 0;
      hIcon := 0;
      szTip := new u16[128](_ => 0);
      dwState := 0;
      dwStateMask := 0;
      szInfo := new u16[256](_ => 0);
      szInfoTitle := new u16[64](_ => 0);
      dwInfoFlags := 0;
    }
  }

  const TooltipTooLong: string := "Error tooltip is larger then 128 bytes"
  const TooltipError: string := "Error setting tooltip: "

  /** The text a NUL-terminated UTF-16 buffer holds: everything before the first 0. */
  function TerminatedText(buf: seq<u16>): (t: seq<u16>)
    ensures |t| <= |buf|
    ensures forall i :: 0 <= i < |t| ==> t[i] != 0 && t[i] == buf[i]
    ensures |t| < |buf| ==> buf[|t|] == 0
  {
    if buf == [] || buf[0] == 0 then [] else [buf[0]] + TerminatedText(buf[1..])
  }

  /** Each byte widened to a UTF-16 unit of the same value. */
  function Widen(bytes: seq<u8>): (w: seq<u16>)
    ensures |w| == |bytes|
    ensures forall i :: 0 <= i < |bytes| ==> w[i] as int == bytes[i] as int
  {
    seq(|bytes|, i requires 0 <= i < |bytes| => bytes[i] as int as u16)
  }

  /**
   * Reading back the tooltip buffer: a tooltip without NUL bytes is
   * recovered exactly, and the buffer carries a terminating NUL only when
   * the tooltip is shorter than 128 bytes.
   */
  lemma TooltipReadBack(tooltip: seq<u8>, buf: seq<u16>)
    requires |tooltip| <= 128 && |buf| == 128
    requires forall i :: 0 <= i < |tooltip| ==> buf[i] as int == tooltip[i] as int
    requires forall i :: |tooltip| <= i < 128 ==> buf[i] == 0
    requires forall i :: 0 <= i < |tooltip| ==> tooltip[i] != 0
    ensures TerminatedText(buf) == Widen(tooltip)
    ensures (exists i :: 0 <= i < 128 && buf[i] == 0) <==> |tooltip| < 128
  {
    var t := TerminatedText(buf);
    if |tooltip| < 128 {
      assert buf[|tooltip|] == 0;
    }
    assert t == Widen(tooltip);
  }

  class TrayWindow {
    const info: WindowInfo
    /** The tray thread's join handle, taken by the first `Quit`. */
    var windowsLoop: Option<JoinHandle>
    /** The popup menu's items, as the menu holds them. */
    var menu: seq<MenuEntry>
    /** How many times the tray thread has been joined. */
    ghost var joins: nat
    /** The event channel, whose sending end the tray thread owns. */
    const events: Channel<TrayEvent>

    constructor (info: WindowInfo, thread: JoinHandle, events: Channel<TrayEvent>)
      ensures this.info == info && this.events == events
      ensures windowsLoop == Some(thread) && menu == [] && joins == 0
    {
      this.info := info;
      this.events := events;
      windowsLoop := Some(thread);
      menu := [];
      joins := 0;
    }

    /** `add_menu_entry`: a string item with id `idx` at position `idx`. */
    method AddMenuEntry(idx: nat, name: seq<u16>, inserted: bool, code: u32) returns (r: TrayResult<()>)
      modifies this`menu
      ensures r == if inserted then Ok(()) else Err(OsError(InsertItemError + Decimal(code as nat)))
      ensures menu == if inserted then InsertAt(old(menu), idx, StringItem(idx, name)) else old(menu)
    {
      if !inserted {
        return Err(OsError(InsertItemError + Decimal(code as nat)));
      }
      menu := InsertAt(menu, idx, StringItem(idx, name));
      return Ok(());
    }

    /** `add_menu_separator`: a separator at position `idx`. */
    method AddMenuSeparator(idx: nat, inserted: bool, code: u32) returns (r: TrayResult<()>)
      modifies this`menu
      ensures r == if inserted then Ok(()) else Err(OsError(InsertSeparatorError + Decimal(code as nat)))
      ensures menu == if inserted then InsertAt(old(menu), idx, Separator) else old(menu)
    {
      if !inserted {
        return Err(OsError(InsertSeparatorError + Decimal(code as nat)));
      }
      menu := InsertAt(menu, idx, Separator);
      return Ok(());
    }

    /**
     * `quit`: asks the tray window to close, then takes the join handle
     * and, if it was there, joins the thread, whose exit drops the sender.
     */
    method Quit()
      modifies this`windowsLoop, this`joins, events
      ensures windowsLoop == None
      ensures joins == old(joins) + (if old(windowsLoop).Some? then 1 else 0)
      ensures events.senderAlive == (old(events.senderAlive) && old(windowsLoop) == None)
      ensures events.queue == old(events.queue) && events.receiverAlive == old(events.receiverAlive)
    {
      var t := windowsLoop;
      windowsLoop := None;
      if t.Some? {
        joins := joins + 1;
        events.DropSender();
      }
    }

    /**
     * `set_tooltip`: a tooltip over 128 bytes is refused before the shell
     * is called. Otherwise its bytes are copied into a zeroed `szTip` and
     * handed to the shell (`sent`), whose answer is `shellOk`.
     */
    method SetTooltip(tooltip: seq<u8>, shellOk: bool, code: u32) returns (r: TrayResult<()>, sent: Option<seq<u16>>)
      ensures |tooltip| > 128 ==> r == Err(OsError(TooltipTooLong)) && sent == None
      ensures |tooltip| <= 128 ==>
        && sent.Some? && |sent.value| == 128
        && (forall i :: 0 <= i < |tooltip| ==> sent.value[i] as int == tooltip[i] as int)
        && (forall i :: |tooltip| <= i < 128 ==> sent.value[i] == 0)
        && r == if shellOk then Ok(()) else Err(OsError(TooltipError + Decimal(code as nat)))
    {
      if |tooltip| > 128 {
        return Err(OsError(TooltipTooLong)), None;
      }
      var nid := new NotifyIconData(info.hwnd, NIF_TIP);
      var i := 0;
      while i < |tooltip|
        invariant 0 <= i <= |tooltip|
        invariant forall j :: 0 <= j < i ==> nid.szTip[j] as int == tooltip[j] as int
        invariant forall j :: i <= j < 128 ==> nid.szTip[j] == 0
      {
        nid.szTip[i] := tooltip[i] as int as u16;
        i := i + 1;
      }
      sent := Some(nid.szTip[..]);
      if !shellOk {
        return Err(OsError(TooltipError + Decimal(code as nat))), sent;
      }
      return Ok(()), sent;
    }
  }

  // ---------------------------------------------------------------------
  // The application object
  // ---------------------------------------------------------------------

  class Application {
    const window: TrayWindow
    var menuIdx: nat
    var callbacks: map<nat, Callback>
    /** The receiving end of the event channel. */
    const rx: Channel<TrayEvent>

    ghost function State(): TrayState
      reads this, window, rx
    {
      TrayState(menuIdx, callbacks, window.menu, window.windowsLoop.Some?, window.joins, rx.queue, rx.senderAlive)
    }

    /** The application keeps its receiving end for its whole life. */
    ghost predicate Valid()
      reads this, window, rx
    {
      window.events == rx && rx.receiverAlive && Inv(State())
    }

    constructor Assemble(window: TrayWindow, rx: Channel<TrayEvent>)
      ensures this.window == window && this.rx == rx
      ensures menuIdx == 0 && callbacks == map[]
    {
      this.window := window;
      this.rx := rx;
      menuIdx := 0;
      callbacks := map[];
    }

    /**
     * `Application::new`: opens the event channel and starts the tray
     * thread (`thread`), which builds its window and menu and reports
     * `WindowInfoNew`'s result back; a failure there is returned.
     */
    static method New(classAtom: nat, hwnd: Hwnd, hmenu: Hmenu, hinstance: nat,
                      menuInfoSet: bool, iconAdded: bool, code: u32, thread: JoinHandle)
      returns (r: TrayResult<Application>)
      ensures var init := WindowInfoNew(classAtom, hwnd, hmenu, hinstance, menuInfoSet, iconAdded, code);
        && (init.Err? ==> r == Err(init.error))
        && (init.Ok? ==> r.Ok? && fresh(r.value) && fresh(r.value.window) && fresh(r.value.rx)
                          && r.value.Valid() && r.value.State() == Started)
    {
      var events := new Channel<TrayEvent>();
      var init := WindowInfoNew(classAtom, hwnd, hmenu, hinstance, menuInfoSet, iconAdded, code);
      if init.Err? {
        return Err(init.error);
      }
      var w := new TrayWindow(init.value, thread, events);
      var app := new Application.Assemble(w, events);
      StartedIsValid();
      return Ok(app);
    }

    method AddMenuItem(name: seq<u16>, f: Callback, inserted: bool, code: u32) returns (r: TrayResult<nat>)
      requires Valid()
      modifies this, window
      ensures Valid()
      ensures (State(), r) == AddMenuItemSpec(old(State()), name, f, inserted, code)
    {
      AddMenuItemHandsOutFreshIndex(State(), name, f, inserted, code);
      var idx := menuIdx;
      var e := window.AddMenuEntry(idx, name, inserted, code);
      if e.Err? {
        return Err(e.error);
      }
      callbacks := callbacks[idx := f];
      menuIdx := menuIdx + 1;
      return Ok(idx);
    }

    method AddMenuSeparator(inserted: bool, code: u32) returns (r: TrayResult<nat>)
      requires Valid()
      modifies this, window
      ensures Valid()
      ensures (State(), r) == AddMenuSeparatorSpec(old(State()), inserted, code)
    {
      AddMenuSeparatorUsesIndex(State(), inserted, code);
      var idx := menuIdx;
      var e := window.AddMenuSeparator(idx, inserted, code);
      if e.Err? {
        return Err(e.error);
      }
      menuIdx := menuIdx + 1;
      return Ok(idx);
    }

    method Quit()
      requires Valid()
      modifies window, rx
      ensures Valid()
      ensures State() == QuitSpec(old(State()))
    {
      QuitJoinsOnce(State());
      window.Quit();
    }

    /** Runs a callback's calls against this application. */
    method RunCallback(f: Callback)
      requires Valid()
      modifies this, window, rx
      ensures Valid()
      ensures State() == RunActions(old(State()), f.actions)
      decreases |rx.queue|, 1
    {
      var i := 0;
      while i < |f.actions|
        invariant 0 <= i <= |f.actions|
        invariant Valid()
        invariant |rx.queue| <= old(|rx.queue|)
        invariant RunActions(State(), f.actions[i..]) == RunActions(old(State()), f.actions)
      {
        assert f.actions[i..][0] == f.actions[i] && f.actions[i..][1..] == f.actions[i + 1..];
        match f.actions[i] {
          case AddItem(name, g, inserted, code) =>
            var _ := AddMenuItem(name, g, inserted, code);
          case AddSeparator(inserted, code) =>
            var _ := AddMenuSeparator(inserted, code);
          case QuitTray =>
            Quit();
          case UpdateTray =>
            var _ := Update();
        }
        i := i + 1;
      }
    }

    method Update() returns (r: TrayResult<()>)
      requires Valid()
      modifies this, window, rx
      ensures Valid()
      ensures (State(), r) == UpdateSpec(old(State()))
      decreases |rx.queue|, 0
    {
      ghost var s := State();
      var m := rx.TryRecv();
      match m {
        case Received(ev) =>
          var k := ev.id as nat;
          assert State() == s.(queue := s.queue[1..]);
          if k in callbacks {
            UpdateDispatches(s);
            ghost var during := s.(queue := s.queue[1..], callbacks := s.callbacks - {k});
            var f := callbacks[k];
            callbacks := callbacks - {k};
            assert State() == during;
            RunCallback(f);
            assert State() == RunActions(during, f.actions);
            if f.outcome.Fails? {
              return Err(Error(f.outcome.error));
            }
            callbacks := callbacks[k := f];
          }
          return Ok(());
        case Empty =>
          return Ok(());
        case Disconnected =>
          Quit();
          return Ok(());
      }
    }
  }
}
