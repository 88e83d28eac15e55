/**
 * Block `modal-window`: every instance shares the static fields `modal`
 * (is some window open) and `namemodal` (the name it was opened with);
 * `open`/`close` arbitrate through them and through the `modal-window`
 * channel. The DOM is reduced to the window's `hide` modifier, its `display`
 * modifier and content height, the body's scroll lock and a click flag.
 */
module ModalWindowBlock {
  import opened Optional
  import opened Channels

  /** The channel every instance listens and emits on. */
  const CHANNEL := "modal-window"

  function CloseModalMessage(data: Payload): Message
  {
    Message(Some(CHANNEL), CloseModal, data)
  }

  // ----- Placement -------------------------------------------------------

  /** The `display` modifier of the block. */
  datatype Display = NoDisplay | DisplayTop | DisplayCenter | DisplayBottom | DisplayFit

  /** The heights `_open` and `_resize` measure: the browser window, the
      `__wrap` element and the `__content` element. */
  datatype Viewport = Viewport(winH: int, wrapH: int, contentH: int)

  /** `_resize`: the content is lower than the browser window. */
  predicate Fits(v: Viewport)
  {
    v.contentH < v.winH
  }

  /** The `display` modifier and the content height written in px (if any). */
  datatype Placement = Placement(display: Display, contentHeight: Option<int>)

  /** The height `fit` gives the content: the window height minus the chrome
      around the content, `floor(winH - (wrap - content))` on integers. */
  function FitHeight(v: Viewport): int
  {
    v.winH - (v.wrapH - v.contentH)
  }

  /** The placement `_open` leaves, from the direction, whether the window
      was hidden when `_open` ran, and the placement before. */
  function Place(direction: string, wasHidden: bool, before: Placement, v: Viewport): (p: Placement)
    // A hidden window is first shown at the top; `fit` then pins the content height.
    ensures wasHidden && direction == "fit" ==> p == Placement(DisplayFit, Some(FitHeight(v)))
    ensures wasHidden && (direction == "center" || direction == "auto") ==>
      p == Placement(if Fits(v) then DisplayCenter else DisplayTop, before.contentHeight)
    ensures wasHidden && direction == "bottom" ==>
      p == Placement(if Fits(v) then DisplayBottom else DisplayTop, before.contentHeight)
    // `top`, the documented-but-unchecked `end`, and anything else: top.
    ensures (wasHidden && direction != "fit" && direction != "center" && direction != "auto"
             && direction != "bottom") ==> p == Placement(DisplayTop, before.contentHeight)
    // A window that was already shown keeps its placement unless the probe moves it.
    ensures !wasHidden ==> p.contentHeight == before.contentHeight
    ensures !wasHidden ==> (p.display ==
      if (direction == "center" || direction == "auto") && Fits(v) then DisplayCenter
      else if direction == "bottom" && Fits(v) then DisplayBottom
      else before.display)
  {
    var shown :=
      if !wasHidden then before
      else if direction == "fit" then Placement(DisplayFit, Some(FitHeight(v)))
      else before.(display := DisplayTop);
    if (direction == "center" || direction == "auto") && Fits(v) then shown.(display := DisplayCenter)
    else if direction == "bottom" && Fits(v) then shown.(display := DisplayBottom)
    else shown
  }

  // ----- The shared registry (static `modal`, `namemodal`) ----------------

  /** The two static fields. */
  datatype Arbiter = Arbiter(modal: bool, namemodal: Option<string>)

  /** `modal: false, namemodal: null`. */
  const CLOSED := Arbiter(false, None)

  /** A call that writes the static fields: `open(name)` or `close()`. */
  datatype Op = OpenOp(name: string) | CloseOp

  /** The static fields after one call. Every `open(name)`, whatever branch it
      takes, ends in `_open(name)`; `close()` clears `modal` only. */
  function Step(a: Arbiter, op: Op): (r: Arbiter)
    ensures r.modal <==> op.OpenOp?
    ensures op.OpenOp? ==> r.namemodal == Some(op.name)
    ensures op.CloseOp? ==> r.namemodal == a.namemodal
  {
    match op
    case OpenOp(n) => Arbiter(true, Some(n))
    case CloseOp => a.(modal := false)
  }

  /** The static fields after a sequence of calls. */
  function Run(a: Arbiter, ops: seq<Op>): Arbiter
  {
    if ops == [] then a else Step(Run(a, ops[..|ops| - 1]), ops[|ops| - 1])
  }

  /** The name of the most recent `open` in `ops`. */
  function LastOpened(ops: seq<Op>): Option<string>
  {
    if ops == [] then None
    else if ops[|ops| - 1].OpenOp? then Some(ops[|ops| - 1].name)
    else LastOpened(ops[..|ops| - 1])
  }

  /** `modal` says whether the last call was an `open`; `namemodal` is the name
      of the most recent `open`, even after a `close` (which never resets it). */
  lemma {:induction false} RunTracksLastOpen(a: Arbiter, ops: seq<Op>)
    ensures Run(a, ops).modal == if ops == [] then a.modal else ops[|ops| - 1].OpenOp?
    ensures Run(a, ops).namemodal == if LastOpened(ops).Some? then LastOpened(ops) else a.namemodal
  {
    if ops != [] {
      RunTracksLastOpen(a, ops[..|ops| - 1]);
    }
  }

  /** From the initial registry: whenever a window is open, the registry
      names exactly the one the last call opened. */
  lemma SingleActive(ops: seq<Op>)
    requires Run(CLOSED, ops).modal
    ensures ops != [] && ops[|ops| - 1].OpenOp?
    ensures Run(CLOSED, ops).namemodal == Some(ops[|ops| - 1].name)
  {
    RunTracksLastOpen(CLOSED, ops);
  }

  /** The messages `open(data)` emits: nothing when no window is open; a
      `closemodal` addressed to the open window when it is another one; the
      nameless `closemodal` of its own `close()` when it is this one. */
  function OpenEmits(a: Arbiter, data: string): (ms: seq<Message>)
    ensures |ms| <= 1
    ensures ms == [] <==> !a.modal
    ensures a.modal && a.namemodal == Some(data) ==> ms == [CloseModalMessage(NoData)]
    ensures a.modal && a.namemodal.Some? && a.namemodal != Some(data) ==>
      ms == [CloseModalMessage(Text(a.namemodal.value))]
  {
    if !a.modal then []
    else if a.namemodal != Some(data) then [CloseModalMessage(PayloadOf(a.namemodal))]
    else [CloseModalMessage(NoData)]
  }

  /** The window-resize handler re-opens only the instance the registry names. */
  predicate ResizeReopens(a: Arbiter, name: string)
  {
    a.modal && a.namemodal == Some(name)
  }

  /** A resize re-open (`close()` then `open(namemodal)`) leaves the registry as
      it found it and emits only the nameless `closemodal`. */
  lemma ResizeRestoresRegistry(a: Arbiter, name: string)
    requires ResizeReopens(a, name)
    ensures Run(a, [CloseOp, OpenOp(name)]) == a
    ensures OpenEmits(Step(a, CloseOp), name) == []
  {
    assert [CloseOp, OpenOp(name)][..1] == [CloseOp];
    assert [CloseOp][..0] == [];
  }

  // ----- Inside/outside click disambiguation -----------------------------

  /** The handler on the whole block, given the flag `e`: the new flag and
      whether it called `close()`. */
  function BlockClick(e: int): (int, bool)
  {
    if e == 1 || e == 0 then (e, true) else (1, false)
  }

  /** One click: inside the content the content handler sets `e = 2` before the
      block handler runs; outside, only the block handler runs. */
  function Interaction(e: int, inside: bool): (r: (int, bool))
    ensures inside ==> r == (1, false)
    ensures !inside && (e == 0 || e == 1) ==> r == (e, true)
  {
    BlockClick(if inside then 2 else e)
  }

  /** For each click of a sequence (true = inside the content), whether the
      block handler closed the window. */
  function Closes(e: int, clicks: seq<bool>): seq<bool>
    decreases |clicks|
  {
    if clicks == [] then []
    else
      var r := Interaction(e, clicks[0]);
      [r.1] + Closes(r.0, clicks[1..])
  }

  /** Starting from `e` in {0, 1} (0 at `inited`, and every click ends with 0 or
      1), exactly the outside clicks close the window, in any order. */
  lemma {:induction false} OnlyOutsideClicksClose(e: int, clicks: seq<bool>)
    requires e == 0 || e == 1
    ensures |Closes(e, clicks)| == |clicks|
    ensures forall i :: 0 <= i < |clicks| ==> Closes(e, clicks)[i] == !clicks[i]
    decreases |clicks|
  {
    if clicks != [] {
      var r := Interaction(e, clicks[0]);
      OnlyOutsideClicksClose(r.0, clicks[1..]);
    }
  }

  // ----- The objects ------------------------------------------------------

  /** The static fields `modal` and `namemodal`, one object for all instances. */
  class Registry {
    var modal: bool
    var namemodal: Option<string>

    constructor()
      ensures State() == CLOSED
    {
      modal := false;
      namemodal := None;
    }

    function State(): Arbiter
      reads this
    {
      Arbiter(modal, namemodal)
    }
  }

  /** The page body: `overflow: hidden` while a window is open. */
  class Body {
    var scrollLocked: bool

    constructor()
      ensures !scrollLocked
    {
      scrollLocked := false;
    }
  }

  class ModalWindow {
    /** `params.name` (required by the block), `params.direction`, and
        whether a `__close` icon exists. */
    const name: string
    const direction: string
    const hasCloseIcon: bool
    const registry: Registry
    const body: Body
    const bus: Bus

    /** The `hide` modifier, the placement, and the click flag `e`. */
    var hidden: bool
    var placement: Placement
    var clickFlag: int

    /** `inited`: the window starts as its markup has it, with `e = 0`. */
    constructor(name: string, direction: string, hasCloseIcon: bool, hidden: bool,
                registry: Registry, body: Body, bus: Bus)
      ensures this.name == name && this.direction == direction && this.hasCloseIcon == hasCloseIcon
      ensures this.registry == registry && this.body == body && this.bus == bus
      ensures this.hidden == hidden && placement == Placement(NoDisplay, None) && clickFlag == 0
    {
      this.name := name;
      this.direction := direction;
      this.hasCloseIcon := hasCloseIcon;
      this.registry := registry;
      this.body := body;
      this.bus := bus;
      this.hidden := hidden;
      placement := Placement(NoDisplay, None);
      clickFlag := 0;
    }

    /** `_open(data)`: lock the body's scroll, show and place the window, and
        record it in the registry. */
    method OpenWindow(data: string, v: Viewport)
      modifies this, registry, body
      ensures body.scrollLocked && !hidden
      ensures placement == Place(direction, old(hidden), old(placement), v)
      ensures registry.State() == Step(old(registry.State()), OpenOp(data))
      ensures clickFlag == old(clickFlag)
    {
      body.scrollLocked := true;
      if hidden {
        if direction == "fit" {
          hidden := false;
          placement := placement.(display := DisplayTop);
          var h := FitHeight(v);
          placement := Placement(DisplayFit, Some(h));
        } else {
          hidden := false;
          placement := placement.(display := DisplayTop);
        }
      }
      if direction == "center" || direction == "auto" {
        if Fits(v) {
          placement := placement.(display := DisplayCenter);
        }
      }
      if direction == "bottom" {
        if Fits(v) {
          placement := placement.(display := DisplayBottom);
        }
      }
      registry.modal := true;
      registry.namemodal := Some(data);
    }

    /** `open(data)`: always ends with the registry naming `data`; hands off
        from another open window by a `closemodal` addressed to it, or
        closes and re-opens when `data` is already the open one. */
    method Open(data: string, v: Viewport)
      modifies this, registry, body, bus
      ensures registry.State() == Arbiter(true, Some(data))
      ensures bus.log == old(bus.log) + OpenEmits(old(registry.State()), data)
      ensures body.scrollLocked && !hidden
      ensures placement == Place(direction,
        old(hidden) || (old(registry.modal) && old(registry.namemodal) == Some(data)),
        old(placement), v)
      ensures clickFlag == old(clickFlag)
    {
      if !registry.modal {
        OpenWindow(data, v);
      } else if registry.namemodal != Some(data) {
        bus.Emit(CloseModalMessage(PayloadOf(registry.namemodal)));
        OpenWindow(data, v);
      } else {
        var ok := Close();
        if ok {
          OpenWindow(data, v);
        }
      }
    }

    /** `close()`: hides the window and unlocks the body only if it was shown;
        always clears `modal` (never `namemodal`), always emits a nameless
        `closemodal`, always returns true. */
    method Close() returns (ok: bool)
      modifies this, registry, body, bus
      ensures ok
      ensures hidden
      ensures body.scrollLocked == (old(hidden) && old(body.scrollLocked))
      ensures registry.State() == Step(old(registry.State()), CloseOp)
      ensures registry.namemodal == old(registry.namemodal)
      ensures bus.log == old(bus.log) + [CloseModalMessage(NoData)]
      ensures placement == old(placement) && clickFlag == old(clickFlag)
    {
      if !hidden {
        hidden := true;
        body.scrollLocked := false;
      }
      registry.modal := false;
      bus.Emit(CloseModalMessage(NoData));
      ok := true;
    }

    /** Click handler on `__content`: `e = 2`. */
    method OnContentClick()
      modifies this
      ensures clickFlag == 2
      ensures hidden == old(hidden) && placement == old(placement)
    {
      clickFlag := 2;
    }

    /** Click handler on the whole block: closes when `e` is 0 or 1, otherwise
        records `e = 1` and leaves the window open. */
    method OnBlockClick()
      modifies this, registry, body, bus
      ensures clickFlag == BlockClick(old(clickFlag)).0
      ensures placement == old(placement)
      ensures BlockClick(old(clickFlag)).1 ==>
        hidden && registry.State() == Step(old(registry.State()), CloseOp)
        && bus.log == old(bus.log) + [CloseModalMessage(NoData)]
        && body.scrollLocked == (old(hidden) && old(body.scrollLocked))
      ensures !BlockClick(old(clickFlag)).1 ==>
        hidden == old(hidden) && registry.State() == old(registry.State())
        && bus.log == old(bus.log) && body.scrollLocked == old(body.scrollLocked)
    {
      if clickFlag == 1 || clickFlag == 0 {
        var _ := Close();
      } else {
        clickFlag := 1;
      }
    }

    /** One click as the browser delivers it: the content handler first when
        the click lands inside the content, then the block handler. */
    method Click(inside: bool)
      modifies this, registry, body, bus
      ensures clickFlag == Interaction(old(clickFlag), inside).0
      ensures placement == old(placement)
      ensures Interaction(old(clickFlag), inside).1 ==>
        hidden && registry.State() == Step(old(registry.State()), CloseOp)
        && bus.log == old(bus.log) + [CloseModalMessage(NoData)]
        && body.scrollLocked == (old(hidden) && old(body.scrollLocked))
      ensures !Interaction(old(clickFlag), inside).1 ==>
        hidden == old(hidden) && registry.State() == old(registry.State())
        && bus.log == old(bus.log) && body.scrollLocked == old(body.scrollLocked)
    {
      if inside {
        OnContentClick();
      }
      OnBlockClick();
    }

    /** Click handler on `__close`, wired only when the icon exists. */
    method OnCloseIconClick()
      modifies this, registry, body, bus
      ensures placement == old(placement) && clickFlag == old(clickFlag)
      ensures hasCloseIcon ==>
        hidden && registry.State() == Step(old(registry.State()), CloseOp)
        && bus.log == old(bus.log) + [CloseModalMessage(NoData)]
        && body.scrollLocked == (old(hidden) && old(body.scrollLocked))
      ensures !hasCloseIcon ==>
        hidden == old(hidden) && registry.State() == old(registry.State())
        && bus.log == old(bus.log) && body.scrollLocked == old(body.scrollLocked)
    {
      if hasCloseIcon {
        var _ := Close();
      }
    }

    /** The `openmodal`/`closemodal` handlers (on the channel and, identically,
        as BEM events): act only when the data equals this instance's name. */
    method Deliver(m: Message, v: Viewport)
      modifies this, registry, body, bus
      ensures m == Message(Some(CHANNEL), OpenModal, Text(name)) ==>
        registry.State() == Arbiter(true, Some(name))
        && bus.log == old(bus.log) + OpenEmits(old(registry.State()), name) && !hidden
        && body.scrollLocked
        && placement == Place(direction,
             old(hidden) || (old(registry.modal) && old(registry.namemodal) == Some(name)),
             old(placement), v)
      ensures m == Message(Some(CHANNEL), CloseModal, Text(name)) ==>
        hidden && registry.State() == Step(old(registry.State()), CloseOp)
        && bus.log == old(bus.log) + [CloseModalMessage(NoData)]
        && body.scrollLocked == (old(hidden) && old(body.scrollLocked))
        && placement == old(placement)
      ensures (m != Message(Some(CHANNEL), OpenModal, Text(name))
        && m != Message(Some(CHANNEL), CloseModal, Text(name))) ==>
        hidden == old(hidden) && registry.State() == old(registry.State()) && bus.log == old(bus.log)
        && body.scrollLocked == old(body.scrollLocked) && placement == old(placement)
      ensures clickFlag == old(clickFlag)
    {
      if m.channel == Some(CHANNEL) && m.payload == Text(name) {
        if m.tag == OpenModal {
          Open(name, v);
        } else if m.tag == CloseModal {
          var _ := Close();
        }
      }
    }

    /** The window-resize handler: only the instance the registry names is
        closed and re-opened (re-running placement); the registry ends as it
        started. */
    method OnResize(v: Viewport)
      modifies this, registry, body, bus
      ensures clickFlag == old(clickFlag)
      ensures ResizeReopens(old(registry.State()), name) ==>
        registry.State() == old(registry.State()) && !hidden && body.scrollLocked
        && placement == Place(direction, true, old(placement), v)
        && bus.log == old(bus.log) + [CloseModalMessage(NoData)]
      ensures !ResizeReopens(old(registry.State()), name) ==>
        hidden == old(hidden) && placement == old(placement)
        && registry.State() == old(registry.State()) && bus.log == old(bus.log)
        && body.scrollLocked == old(body.scrollLocked)
    {
      if registry.modal {
        if registry.namemodal == Some(name) {
          var ok := Close();
          if ok {
            Open(registry.namemodal.value, v);
          }
        }
      }
    }
  }
}
