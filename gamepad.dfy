/**
 * Gamepad input. Each connected gamepad keeps the pressed state of its
 * buttons and the value of its four stick axes as of the last poll.
 * `updateGamepad` polls every gamepad: a button that went from released to
 * pressed calls the `gamepaddown` callbacks for its name, one that went from
 * pressed to released calls the `gamepadup` callbacks, and then the new state
 * is recorded. A callback is either global (any gamepad) or bound to one
 * gamepad index; a gamepad's own callback is called before the global one.
 *
 * `navigator.getGamepads()` is the parameter of the poll; a gamepad is known
 * once the `gamepadconnected` event announced it.
 */
module Gamepads {
  import opened Wrappers
  import opened Events

  /** The standard button layout: button index to name. */
  const GamepadMap: seq<string> := [
    "south", "east", "west", "north", "leftshoulder", "rightshoulder", "lefttrigger", "righttrigger",
    "select", "start", "leftstick", "rightstick", "dpadup", "dpaddown", "dpadleft", "dpadright"]

  /** The four axes, by axis index. */
  const AxisNames: seq<string> := ["leftstickx", "leftsticky", "rightstickx", "rightsticky"]

  function ButtonName(i: nat): (r: Option<string>)
    ensures r.Some? <==> i < 16
    ensures r.Some? ==> r.value == GamepadMap[i]
  {
    if i < |GamepadMap| then Some(GamepadMap[i]) else None
  }

  /** No two buttons share a name. */
  lemma GamepadMapDistinct(i: nat, j: nat)
    requires i < 16 && j < 16 && GamepadMap[i] == GamepadMap[j]
    ensures i == j
  {
    var a, b := GamepadMap[i], GamepadMap[j];
    assert |a| == |b| && a[0] == b[0] && a[|a| - 1] == b[|b| - 1];
    if |a| >= 5 {
      assert a[4] == b[4];
    }
  }

  /** Exactly the 16 standard buttons have a name, and no two of them the same one. */
  lemma ButtonNamesDistinct(i: nat, j: nat)
    ensures ButtonName(i).Some? <==> i < |GamepadMap|
    ensures ButtonName(i).Some? && ButtonName(i) == ButtonName(j) ==> i == j
  {
    if ButtonName(i).Some? && ButtonName(i) == ButtonName(j) {
      GamepadMapDistinct(i, j);
    }
  }

  // ---------------------------------------------------------------------------
  // Callbacks
  // ---------------------------------------------------------------------------

  datatype Handler = GamepadDown | GamepadUp

  /** Callbacks of one handler: global ones by button name, and per gamepad index. */
  datatype Scoped<C> = Scoped(global: map<string, C>, indexed: map<nat, map<string, C>>)

  /** The callbacks a press or release of `name` on gamepad `pad` calls, the gamepad's own first. */
  function CallbacksFor<C>(s: Scoped<C>, pad: nat, name: string): (r: seq<C>)
    ensures |r| <= 2
    ensures (pad in s.indexed && name in s.indexed[pad]) && name in s.global ==>
              r == [s.indexed[pad][name], s.global[name]]
    ensures !(pad in s.indexed && name in s.indexed[pad]) && name !in s.global ==> r == []
  {
    (if pad in s.indexed && name in s.indexed[pad] then [s.indexed[pad][name]] else []) +
    (if name in s.global then [s.global[name]] else [])
  }

  /** Stores `c` for `name`, globally when no gamepad index is given. */
  function Bind<C>(s: Scoped<C>, name: string, c: C, gamepad: Option<nat>): (r: Scoped<C>)
    ensures gamepad.None? ==> r == s.(global := s.global[name := c])
    ensures gamepad.Some? ==> r.global == s.global && r.indexed.Keys == s.indexed.Keys + {gamepad.value}
  {
    match gamepad
    case None => s.(global := s.global[name := c])
    case Some(g) =>
      var own := if g in s.indexed then s.indexed[g] else map[];
      s.(indexed := s.indexed[g := own[name := c]])
  }

  /** Removes the callback for `name` in the given scope; an unknown scope is left alone. */
  function Unbind<C>(s: Scoped<C>, name: string, gamepad: Option<nat>): (r: Scoped<C>)
    ensures gamepad.None? ==> r.indexed == s.indexed && r.global == s.global - {name}
    ensures gamepad.Some? ==> r.global == s.global && r.indexed.Keys == s.indexed.Keys
  {
    match gamepad
    case None => s.(global := s.global - {name})
    case Some(g) =>
      if g in s.indexed then s.(indexed := s.indexed[g := s.indexed[g] - {name}]) else s
  }

  function BindAll<C>(s: Scoped<C>, names: seq<string>, c: C, gamepad: Option<nat>): Scoped<C>
    decreases |names|
  {
    if names == [] then s else Bind(BindAll(s, names[..|names| - 1], c, gamepad), names[|names| - 1], c, gamepad)
  }

  function UnbindAll<C>(s: Scoped<C>, names: seq<string>, gamepad: Option<nat>): Scoped<C>
    decreases |names|
  {
    if names == [] then s else Unbind(UnbindAll(s, names[..|names| - 1], gamepad), names[|names| - 1], gamepad)
  }

  /** Binding `c` to gamepad 0's `name` and globally: a press on gamepad 0 calls both, its own first. */
  lemma GlobalAndOwn<C>(s: Scoped<C>, name: string, cg: C, cp: C)
    ensures var t := Bind(Bind(s, name, cg, None), name, cp, Some(0));
            CallbacksFor(t, 0, name) == [cp, cg]
  {
  }

  /** A callback bound to one gamepad is never called for another. */
  lemma OwnOnlyForOwnPad<C>(s: Scoped<C>, name: string, c: C, g: nat, pad: nat)
    requires g != pad
    ensures CallbacksFor(Bind(s, name, c, Some(g)), pad, name) == CallbacksFor(s, pad, name)
  {
  }

  /** After binding, every listed name calls `c` in that scope. */
  lemma {:induction false} BindAllBinds<C>(s: Scoped<C>, names: seq<string>, c: C, gamepad: Option<nat>, n: string)
    requires n in names
    ensures var t := BindAll(s, names, c, gamepad);
            match gamepad
            case None => n in t.global && t.global[n] == c
            case Some(g) => g in t.indexed && n in t.indexed[g] && t.indexed[g][n] == c
    decreases |names|
  {
    var init, last := names[..|names| - 1], names[|names| - 1];
    if n != last {
      assert names == init + [last];
      BindAllBinds(s, init, c, gamepad, n);
    }
  }

  /** After unbinding, no listed name has a callback in that scope; the other scope is untouched. */
  lemma {:induction false} UnbindAllUnbinds<C>(s: Scoped<C>, names: seq<string>, gamepad: Option<nat>, n: string)
    requires n in names
    ensures var t := UnbindAll(s, names, gamepad);
            match gamepad
            case None => n !in t.global && t.indexed == s.indexed
            case Some(g) => (g in t.indexed ==> n !in t.indexed[g]) && t.global == s.global
    decreases |names|
  {
    var init, last := names[..|names| - 1], names[|names| - 1];
    UnbindAllKeepsOther(s, names, gamepad);
    if n != last {
      assert names == init + [last];
      UnbindAllUnbinds(s, init, gamepad, n);
    }
  }

  lemma {:induction false} UnbindAllKeepsOther<C>(s: Scoped<C>, names: seq<string>, gamepad: Option<nat>)
    ensures gamepad.None? ==> UnbindAll(s, names, gamepad).indexed == s.indexed
    ensures gamepad.Some? ==> UnbindAll(s, names, gamepad).global == s.global
    decreases |names|
  {
    if names != [] {
      UnbindAllKeepsOther(s, names[..|names| - 1], gamepad);
    }
  }

  /** `offGamepad` undoes `onGamepad` for a name that had no callback in that scope. */
  lemma OffUndoesOn<C>(s: Scoped<C>, name: string, c: C, gamepad: Option<nat>)
    requires gamepad.None? ==> name !in s.global
    requires gamepad.Some? ==> gamepad.value in s.indexed && name !in s.indexed[gamepad.value]
    ensures Unbind(Bind(s, name, c, gamepad), name, gamepad) == s
  {
    match gamepad
    case None =>
      assert s.global[name := c] - {name} == s.global;
    case Some(g) =>
      assert s.indexed[g][name := c] - {name} == s.indexed[g];
      assert s.indexed[g := s.indexed[g]] == s.indexed;
  }

  // ---------------------------------------------------------------------------
  // Polling
  // ---------------------------------------------------------------------------

  /** What `navigator.getGamepads()` reports for one gamepad. */
  datatype Pad = Pad(index: nat, buttons: seq<bool>, axes: seq<real>)

  /** The recorded state of a connected gamepad. */
  datatype PadState = PadState(pressed: map<string, bool>, axes: map<string, real>)

  /**
   * A callback bound to one gamepad is the first called for that gamepad,
   * one bound globally is the last called for every gamepad, and binding
   * leaves every other gamepad and every other button name as it was.
   */
  lemma BoundCallbackIsCalled<C>(s: Scoped<C>, name: string, c: C, g: nat, pad: nat, other: string)
    ensures var r := CallbacksFor(Bind(s, name, c, Some(g)), g, name); |r| >= 1 && r[0] == c
    ensures var r := CallbacksFor(Bind(s, name, c, None), pad, name); |r| >= 1 && r[|r| - 1] == c
    ensures pad != g ==> CallbacksFor(Bind(s, name, c, Some(g)), pad, name) == CallbacksFor(s, pad, name)
    ensures other != name ==> CallbacksFor(Bind(s, name, c, Some(g)), pad, other) == CallbacksFor(s, pad, other)
    ensures other != name ==> CallbacksFor(Bind(s, name, c, None), pad, other) == CallbacksFor(s, pad, other)
  {
  }

  const Released: PadState := PadState(map[], map[])

  /** One call made by a poll: the callback, the gamepad, the button index and the button name. */
  datatype PadCall<C> = PadCall(callback: C, pad: nat, button: nat, name: string)

  function Calls<C>(cbs: seq<C>, pad: nat, button: nat, name: string): (r: seq<PadCall<C>>)
    ensures |r| == |cbs| && forall j :: 0 <= j < |r| ==> r[j] == PadCall(cbs[j], pad, button, name)
  {
    seq(|cbs|, j requires 0 <= j < |cbs| => PadCall(cbs[j], pad, button, name))
  }

  function WasPressed(st: PadState, name: string): bool
  {
    name in st.pressed && st.pressed[name]
  }

  /**
   * One button of one poll: the `gamepaddown` callbacks fire on a
   * released-to-pressed edge, the `gamepadup` callbacks on a
   * pressed-to-released edge, nothing otherwise; the new state is recorded.
   * Buttons past the standard layout are ignored.
   */
  function ButtonStep<C>(st: PadState, pad: nat, i: nat, now: bool, down: Scoped<C>, up: Scoped<C>): (r: (PadState, seq<PadCall<C>>))
    ensures i >= 16 ==> r == (st, [])
    ensures i < 16 ==> var n := GamepadMap[i];
                       r.0 == st.(pressed := st.pressed[n := now]) &&
                       (!WasPressed(st, n) && now ==> r.1 == Calls(CallbacksFor(down, pad, n), pad, i, n)) &&
                       (WasPressed(st, n) && !now ==> r.1 == Calls(CallbacksFor(up, pad, n), pad, i, n)) &&
                       (WasPressed(st, n) == now ==> r.1 == [])
  {
    match ButtonName(i)
    case None => (st, [])
    case Some(n) =>
      var prev := WasPressed(st, n);
      var calls := if !prev && now then Calls(CallbacksFor(down, pad, n), pad, i, n)
                   else if prev && !now then Calls(CallbacksFor(up, pad, n), pad, i, n)
                   else [];
      (st.(pressed := st.pressed[n := now]), calls)
  }

  /**
   * A step records the button as reported and calls something only on a
   * change of state, so reporting the same state again is quiet.
   */
  lemma ButtonStepSettles<C>(st: PadState, pad: nat, i: nat, now: bool, down: Scoped<C>, up: Scoped<C>)
    requires i < |GamepadMap|
    ensures var r := ButtonStep(st, pad, i, now, down, up);
            WasPressed(r.0, GamepadMap[i]) == now && r.0.axes == st.axes &&
            (r.1 != [] ==> WasPressed(st, GamepadMap[i]) != now) &&
            ButtonStep(r.0, pad, i, now, down, up).1 == []
  {
  }

  /** The first `k` buttons of a poll of one gamepad, in button order. */
  function PadFold<C>(st: PadState, pad: Pad, k: nat, down: Scoped<C>, up: Scoped<C>): (PadState, seq<PadCall<C>>)
    requires k <= |pad.buttons|
  {
    if k == 0 then (st, [])
    else
      var prev := PadFold(st, pad, k - 1, down, up);
      var step := ButtonStep(prev.0, pad.index, k - 1, pad.buttons[k - 1], down, up);
      (step.0, prev.1 + step.1)
  }

  /** The axes read from a poll; an axis the gamepad does not report reads as unset. */
  function ReadAxes(axes: seq<real>): (r: map<string, real>)
    ensures forall i :: 0 <= i < 4 ==> (AxisNames[i] in r <==> i < |axes|)
    ensures forall i :: 0 <= i < 4 && i < |axes| ==> r[AxisNames[i]] == axes[i]
  {
    map i | 0 <= i < 4 && i < |axes| :: AxisNames[i] := axes[i]
  }

  /** The recorded state of every gamepad after polling the first `k` entries of `polled`. */
  function PollFold<C>(pads: map<nat, PadState>, polled: seq<Option<Pad>>, k: nat, down: Scoped<C>, up: Scoped<C>): (map<nat, PadState>, seq<PadCall<C>>)
    requires k <= |polled|
  {
    if k == 0 then (pads, [])
    else
      var prev := PollFold(pads, polled, k - 1, down, up);
      match polled[k - 1]
      case None => prev
      case Some(p) =>
        if p.index !in prev.0 then prev
        else
          var done := PadFold(prev.0[p.index], p, |p.buttons|, down, up);
          (prev.0[p.index := done.0.(axes := ReadAxes(p.axes))], prev.1 + done.1)
  }

  /** After a poll of one gamepad, each standard button's recorded state is what the poll reported. */
  lemma {:induction false} PadFoldRecords<C>(st: PadState, pad: Pad, k: nat, down: Scoped<C>, up: Scoped<C>, j: nat)
    requires j < k <= |pad.buttons| && j < 16
    ensures var r := PadFold(st, pad, k, down, up).0;
            GamepadMap[j] in r.pressed && r.pressed[GamepadMap[j]] == pad.buttons[j]
  {
    var prev := PadFold(st, pad, k - 1, down, up).0;
    var next := ButtonStep(prev, pad.index, k - 1, pad.buttons[k - 1], down, up).0;
    assert PadFold(st, pad, k, down, up).0 == next;
    var key := GamepadMap[j];
    if j < k - 1 {
      PadFoldRecords(st, pad, k - 1, down, up, j);
      if k - 1 < 16 {
        if GamepadMap[k - 1] == key {
          GamepadMapDistinct(k - 1, j);
        }
        assert next.pressed == prev.pressed[GamepadMap[k - 1] := pad.buttons[k - 1]];
      } else {
        assert next == prev;
      }
    } else {
      assert next.pressed == prev.pressed[key := pad.buttons[j]];
    }
  }

  lemma {:induction false} PadFoldAxes<C>(st: PadState, pad: Pad, k: nat, down: Scoped<C>, up: Scoped<C>)
    requires k <= |pad.buttons|
    ensures PadFold(st, pad, k, down, up).0.axes == st.axes
  {
    if k > 0 {
      PadFoldAxes(st, pad, k - 1, down, up);
    }
  }

  /** A button held down (or left up) across two polls fires nothing the second time. */
  lemma {:induction false} SteadyPollIsQuiet<C>(st: PadState, pad: Pad, k: nat, down: Scoped<C>, up: Scoped<C>)
    requires k <= |pad.buttons|
    requires forall j :: 0 <= j < k && j < 16 ==> WasPressed(st, GamepadMap[j]) == pad.buttons[j]
    ensures PadFold(st, pad, k, down, up).1 == []
  {
    if k > 0 {
      SteadyPollIsQuiet(st, pad, k - 1, down, up);
      var prev := PadFold(st, pad, k - 1, down, up).0;
      if k - 1 < 16 {
        var n := GamepadMap[k - 1];
        assert WasPressed(prev, n) == WasPressed(st, n) by { PadFoldUntouched(st, pad, k - 1, down, up, k - 1); }
      }
    }
  }

  /** A fold over the first `k` buttons leaves the state of later standard buttons alone. */
  lemma {:induction false} PadFoldUntouched<C>(st: PadState, pad: Pad, k: nat, down: Scoped<C>, up: Scoped<C>, j: nat)
    requires k <= j < 16 && k <= |pad.buttons|
    ensures WasPressed(PadFold(st, pad, k, down, up).0, GamepadMap[j]) == WasPressed(st, GamepadMap[j])
  {
    if k > 0 {
      PadFoldUntouched(st, pad, k - 1, down, up, j);
      if GamepadMap[k - 1] == GamepadMap[j] {
        GamepadMapDistinct(k - 1, j);
      }
    }
  }

  // ---------------------------------------------------------------------------
  // The gamepad module's state
  // ---------------------------------------------------------------------------

  /** The listener `initGamepad` registers for the game loop's `tick`. */
  datatype Listener = OnTick

  class GamepadState<C> {
    /** The connected gamepads by index. */
    var pads: map<nat, PadState>
    var down: Scoped<C>
    var up: Scoped<C>

    constructor ()
      ensures pads == map[] && down == Scoped(map[], map[]) && up == Scoped(map[], map[])
    {
      pads := map[];
      down := Scoped(map[], map[]);
      up := Scoped(map[], map[]);
    }

    /** Listens for `tick` (every call adds one more listener). */
    method Init<A>(events: Emitter<Listener, A>)
      modifies events
      ensures events.callbacks == old(events.callbacks)["tick" := Registered(old(events.callbacks), "tick") + [OnTick]]
    {
      events.On("tick", OnTick);
    }

    /** `gamepadconnected`: the gamepad starts with nothing pressed. */
    method Connect(index: nat)
      modifies this
      ensures pads == old(pads)[index := Released] && down == old(down) && up == old(up)
    {
      pads := pads[index := Released];
    }

    /** `gamepaddisconnected`: the gamepad is forgotten. */
    method Disconnect(index: nat)
      modifies this
      ensures pads == old(pads) - {index} && down == old(down) && up == old(up)
    {
      pads := pads - {index};
    }

    /** `blur`: every gamepad forgets its pressed buttons and axes. */
    method Blur()
      modifies this
      ensures pads.Keys == old(pads).Keys && forall i :: i in pads ==> pads[i] == Released
      ensures down == old(down) && up == old(up)
    {
      pads := map i | i in pads :: Released;
    }

    /** `onGamepad`: stores `c` for every name, globally or for one gamepad. */
    method On(names: seq<string>, c: C, gamepad: Option<nat>, handler: Handler)
      modifies this
      ensures handler == GamepadDown ==> down == BindAll(old(down), names, c, gamepad) && up == old(up)
      ensures handler == GamepadUp ==> up == BindAll(old(up), names, c, gamepad) && down == old(down)
      ensures pads == old(pads)
    {
      var i := 0;
      while i < |names|
        invariant 0 <= i <= |names| && pads == old(pads)
        invariant handler == GamepadDown ==> down == BindAll(old(down), names[..i], c, gamepad) && up == old(up)
        invariant handler == GamepadUp ==> up == BindAll(old(up), names[..i], c, gamepad) && down == old(down)
      {
        assert names[..i + 1][..i] == names[..i];
        if handler == GamepadDown {
          down := Bind(down, names[i], c, gamepad);
        } else {
          up := Bind(up, names[i], c, gamepad);
        }
        i := i + 1;
      }
      assert names[..i] == names;
    }

    /** `offGamepad`: removes the callback of every name in that scope. */
    method Off(names: seq<string>, gamepad: Option<nat>, handler: Handler)
      modifies this
      ensures handler == GamepadDown ==> down == UnbindAll(old(down), names, gamepad) && up == old(up)
      ensures handler == GamepadUp ==> up == UnbindAll(old(up), names, gamepad) && down == old(down)
      ensures pads == old(pads)
    {
      var i := 0;
      while i < |names|
        invariant 0 <= i <= |names| && pads == old(pads)
        invariant handler == GamepadDown ==> down == UnbindAll(old(down), names[..i], gamepad) && up == old(up)
        invariant handler == GamepadUp ==> up == UnbindAll(old(up), names[..i], gamepad) && down == old(down)
      {
        assert names[..i + 1][..i] == names[..i];
        if handler == GamepadDown {
          down := Unbind(down, names[i], gamepad);
        } else {
          up := Unbind(up, names[i], gamepad);
        }
        i := i + 1;
      }
      assert names[..i] == names;
    }

    /**
     * `updateGamepad`: polls every reported gamepad that is connected,
     * button by button, then reads its axes; returns the callbacks called.
     */
    method Update(polled: seq<Option<Pad>>) returns (calls: seq<PadCall<C>>)
      modifies this
      ensures (pads, calls) == PollFold(old(pads), polled, |polled|, down, up)
      ensures down == old(down) && up == old(up)
    {
      ghost var pads0 := pads;
      calls := [];
      var i := 0;
      while i < |polled|
        invariant 0 <= i <= |polled|
        invariant (pads, calls) == PollFold(pads0, polled, i, down, up)
        invariant down == old(down) && up == old(up)
      {
        if polled[i].Some? && polled[i].value.index in pads {
          var p := polled[i].value;
          var st, padCalls := PollPad(pads[p.index], p, down, up);
          pads := pads[p.index := st.(axes := ReadAxes(p.axes))];
          calls := calls + padCalls;
        }
        i := i + 1;
      }
    }

    /** `gamepadPressed`: any gamepad by default, or the given one; an unknown gamepad is not pressed. */
    function Pressed(name: string, gamepad: Option<nat>): (r: bool)
      reads this
      ensures gamepad.None? ==> (r <==> exists i :: i in pads && WasPressed(pads[i], name))
      ensures gamepad.Some? ==> (r <==> gamepad.value in pads && WasPressed(pads[gamepad.value], name))
    {
      match gamepad
      case None => exists i :: i in pads && WasPressed(pads[i], name)
      case Some(g) => g in pads && WasPressed(pads[g], name)
    }

    /** `gamepadAxis`: the last polled value, 0 when unset or the gamepad is unknown. */
    function Axis(name: string, gamepad: nat): (r: real)
      reads this
      ensures gamepad !in pads || name !in pads[gamepad].axes ==> r == 0.0
      ensures gamepad in pads && name in pads[gamepad].axes ==> r == pads[gamepad].axes[name]
    {
      if gamepad in pads && name in pads[gamepad].axes then pads[gamepad].axes[name] else 0.0
    }
  }

  /** The button loop of one gamepad. */
  method PollPad<C>(st0: PadState, pad: Pad, down: Scoped<C>, up: Scoped<C>) returns (st: PadState, calls: seq<PadCall<C>>)
    ensures (st, calls) == PadFold(st0, pad, |pad.buttons|, down, up)
  {
    st, calls := st0, [];
    var j := 0;
    while j < |pad.buttons|
      invariant 0 <= j <= |pad.buttons|
      invariant (st, calls) == PadFold(st0, pad, j, down, up)
    {
      var step := ButtonStep(st, pad.index, j, pad.buttons[j], down, up);
      st, calls := step.0, calls + step.1;
      j := j + 1;
    }
  }

  /** After a poll, a connected gamepad's buttons and axes read as the poll reported. */
  lemma PollRecords<C>(pads: map<nat, PadState>, p: Pad, down: Scoped<C>, up: Scoped<C>, j: nat, a: nat)
    requires p.index in pads && j < |p.buttons| && j < 16 && a < 4
    ensures p.index in PollFold(pads, [Some(p)], 1, down, up).0
    ensures var r := PollFold(pads, [Some(p)], 1, down, up).0[p.index];
            WasPressed(r, GamepadMap[j]) == p.buttons[j] &&
            (AxisNames[a] in r.axes <==> a < |p.axes|) &&
            (a < |p.axes| ==> r.axes[AxisNames[a]] == p.axes[a])
  {
    PadFoldRecords(pads[p.index], p, |p.buttons|, down, up, j);
  }

  lemma PadFoldOne<C>(st: PadState, pad: Pad, down: Scoped<C>, up: Scoped<C>)
    requires |pad.buttons| >= 1
    ensures PadFold(st, pad, 1, down, up) == ButtonStep(st, pad.index, 0, pad.buttons[0], down, up)
  {
    var step := ButtonStep(st, pad.index, 0, pad.buttons[0], down, up);
    assert [] + step.1 == step.1;
  }

  /**
   * The down-then-up cycle of the tests for one (connected, initially
   * released) gamepad whose only button is `south`: pressing calls the
   * `gamepaddown` callbacks, holding calls nothing, releasing calls the
   * `gamepadup` callbacks.
   */
  lemma PressHoldRelease<C>(st: PadState, down: Scoped<C>, up: Scoped<C>, c: C, u: C)
    requires st == Released
    requires down == Scoped(map["south" := c], map[]) && up == Scoped(map["south" := u], map[])
    ensures var p1 := PadFold(st, Pad(0, [true], []), 1, down, up);
            var p2 := PadFold(p1.0, Pad(0, [true], []), 1, down, up);
            var p3 := PadFold(p2.0, Pad(0, [false], []), 1, down, up);
            p1.1 == [PadCall(c, 0, 0, "south")] && p2.1 == [] && p3.1 == [PadCall(u, 0, 0, "south")]
  {
    var p1 := PadFold(st, Pad(0, [true], []), 1, down, up);
    PadFoldOne(st, Pad(0, [true], []), down, up);
    assert p1.0.pressed == map["south" := true];
    var p2 := PadFold(p1.0, Pad(0, [true], []), 1, down, up);
    PadFoldOne(p1.0, Pad(0, [true], []), down, up);
    assert p2.1 == [];
    assert WasPressed(p2.0, "south");
    var p3 := PadFold(p2.0, Pad(0, [false], []), 1, down, up);
    PadFoldOne(p2.0, Pad(0, [false], []), down, up);
    assert CallbacksFor(down, 0, "south") == [c];
    assert CallbacksFor(up, 0, "south") == [u];
  }
}
