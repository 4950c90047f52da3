/**
 * The part of the winit windowing library the core consumes: event
 * vocabulary, control flow, cursor icons, and an abstract window and window
 * builder whose behaviour is reduced to what the core relies on.
 */
module Winit {
  import opened Wrappers

  /** A size in physical pixels (PhysicalSize<u32>). */
  datatype PhysicalSize = PhysicalSize(width: nat, height: nat)

  /** A requested size in physical pixels (PhysicalSize<f64>). */
  datatype RequestedSize = RequestedSize(width: real, height: real)

  /** An outer window position in physical pixels (PhysicalPosition<i32>). */
  datatype PhysicalPosition = PhysicalPosition(x: int, y: int)

  datatype ElementState = Pressed | Released

  /** The modifier-key register; `logo` is the Windows / Command key. */
  datatype ModifiersState = ModifiersState(shift: bool, ctrl: bool, alt: bool, logo: bool)

  /** ModifiersState::empty(). */
  const NoModifiers := ModifiersState(false, false, false, false)

  /**
   * Virtual key codes: every key the core names, plus Space, and OtherKey
   * standing for each remaining winit key (letters other than Q, digits,
   * function keys, ...), identified by an arbitrary code.
   */
  datatype VirtualKeyCode =
    | Escape | Insert | Home | Delete | End | PageDown | PageUp
    | Left | Up | Right | Down | Back | Return | Tab | Space
    | LAlt | RAlt | LShift | RShift | LControl | RControl | LWin | RWin
    | Q | Paste | Copy | Cut
    | OtherKey(code: nat)

  datatype MouseScrollDelta =
    | LineDelta(lines: real, rows: real)
    | PixelDelta(dx: real, dy: real)

  /**
   * Window events. Each variant the core reacts to is its own constructor;
   * OtherWindowEvent stands for all the rest (Moved, Focused, CursorEntered,
   * DroppedFile, ...). Fields the core ignores (device ids, mouse buttons,
   * scan codes) are left out.
   */
  datatype WindowEvent =
    | CloseRequested
    | Destroyed
    | Resized(size: PhysicalSize)
    | ScaleFactorChanged(scaleFactor: real, newInnerSize: PhysicalSize)
    | MouseInput(state: ElementState)
    | CursorMoved(x: real, y: real)
    | CursorLeft
    | ReceivedCharacter(ch: char)
    | ModifiersChanged(modifiers: ModifiersState)
    | KeyboardInput(state: ElementState, virtualKeycode: Option<VirtualKeyCode>)
    | MouseWheel(delta: MouseScrollDelta)
    | OtherWindowEvent

  /** winit only ever reports positive scale factors. */
  predicate WellFormed(e: WindowEvent) {
    e.ScaleFactorChanged? ==> e.scaleFactor > 0.0
  }

  /** The event loop's wake policy (WaitUntil is never used by the core). */
  datatype ControlFlow = Poll | Wait | Exit

  /** Platform cursor icons: the seven the core produces, and every other one. */
  datatype CursorIcon =
    | Default | Hand | EwResize | NeswResize | NwseResize | NsResize | Text
    | OtherCursor(code: nat)

  /**
   * f64::round, which rounds halfway cases away from zero; winit's pixel
   * conversions use it.
   */
  function Round(x: real): (n: int)
    ensures x - 0.5 <= n as real <= x + 0.5
    ensures n as real == x - 0.5 ==> x < 0.0
    ensures n as real == x + 0.5 ==> x > 0.0
  {
    if x >= 0.0 then (x + 0.5).Floor else -((-x + 0.5).Floor)
  }

  /** Whole numbers round to themselves. */
  lemma RoundInteger(n: int)
    ensures Round(n as real) == n
    ensures n >= 0 ==> RoundToPixels(n as real) == n
  {
    if n < 0 {
      assert (-(n as real) + 0.5).Floor == -n;
    } else {
      assert (n as real + 0.5).Floor == n;
    }
  }

  /** Conversion of a requested pixel count to u32: rounded, negatives become 0. */
  function RoundToPixels(x: real): (n: nat)
    ensures x <= 0.0 ==> n == 0
    ensures x >= 0.0 ==> n == Round(x)
  {
    if Round(x) < 0 then 0 else Round(x)
  }

  /** A window under construction; only the attributes the core sets. */
  datatype WindowBuilder = WindowBuilder(
    title: string,
    decorations: bool,
    resizable: bool,
    transparent: bool,
    innerSize: Option<RequestedSize>)

  /** A window as the core observes it: its inner size and, where the platform reports one, its outer position. */
  datatype Window = Window(innerSize: PhysicalSize, outerPosition: Option<PhysicalPosition>)

  /**
   * Building a window: the platform honours a requested inner size and
   * otherwise picks `defaultSize`; it places the window at `placement`
   * (None on a platform that does not report window positions).
   */
  function Build(b: WindowBuilder, defaultSize: PhysicalSize, placement: Option<PhysicalPosition>): (w: Window)
    ensures b.innerSize.None? ==> w.innerSize == defaultSize
    ensures b.innerSize.Some? ==>
      w.innerSize == PhysicalSize(RoundToPixels(b.innerSize.value.width), RoundToPixels(b.innerSize.value.height))
    ensures w.outerPosition == placement
  {
    var size := match b.innerSize
      case Some(s) => PhysicalSize(RoundToPixels(s.width), RoundToPixels(s.height))
      case None => defaultSize;
    Window(size, placement)
  }

  /** Window::set_outer_position with a PhysicalPosition<f64>: the window moves to the rounded position. */
  function SetOuterPosition(w: Window, x: real, y: real): (w': Window)
    ensures w'.innerSize == w.innerSize
    ensures w'.outerPosition == Some(PhysicalPosition(Round(x), Round(y)))
  {
    w.(outerPosition := Some(PhysicalPosition(Round(x), Round(y))))
  }
}
