/**
 * The input translator of src/lib.rs: how window events become egui input
 * (input_to_egui and its tables printable_char, translate_virtual_key_code),
 * and how egui's output becomes platform actions (translate_cursor and the
 * decision part of handle_output).
 */
module Input {
  import opened Wrappers
  import Winit
  import Egui

  /** Points scrolled per line of a line-based scroll delta. */
  const LineHeight: real := 24.0

  /** The outcome of reading the clipboard: None when no clipboard could be opened. */
  type ClipboardRead = Option<Result<string, string>>

  // --------------------------------------------------------------------------
  // printable_char

  /** The three Unicode private-use ranges. */
  predicate InPrivateUseArea(c: char) {
    var n := c as int;
    (0xE000 <= n <= 0xF8FF) || (0xF0000 <= n <= 0xFFFFD) || (0x100000 <= n <= 0x10FFFD)
  }

  /** char::is_ascii_control: U+0000 to U+001F and U+007F. */
  predicate IsAsciiControl(c: char) {
    c as int <= 0x1F || c as int == 0x7F
  }

  /**
   * Whether a received character is user text. The platform sends special
   * keys as private-use characters, and control characters ('\r', '\n',
   * '\t', ...) are handled as key events instead, so both are dropped. The
   * ensures clause lists the code points that are kept.
   */
  function PrintableChar(c: char): (r: bool)
    ensures r <==>
      var n := c as int;
      || 0x20 <= n <= 0x7E
      || 0x80 <= n < 0xE000
      || 0xF8FF < n < 0xF0000
      || 0xFFFFD < n < 0x100000
      || 0x10FFFD < n
  {
    !InPrivateUseArea(c) && !IsAsciiControl(c)
  }

  lemma PrivateUseAreaIsNotPrintable(c: char)
    requires InPrivateUseArea(c)
    ensures !PrintableChar(c)
  {
  }

  lemma ControlCharactersAreNotPrintable(c: char)
    requires IsAsciiControl(c)
    ensures !PrintableChar(c)
    ensures !PrintableChar('\r') && !PrintableChar('\n') && !PrintableChar('\t')
  {
  }

  lemma OtherCharactersArePrintable(c: char)
    requires !InPrivateUseArea(c) && !IsAsciiControl(c)
    ensures PrintableChar(c)
  {
  }

  // --------------------------------------------------------------------------
  // translate_virtual_key_code

  /** Maps a virtual key to the egui key it stands for, if any. */
  function TranslateVirtualKeyCode(key: Winit.VirtualKeyCode): (r: Option<Egui.Key>)
    ensures forall k :: r == Some(k) <==> key in KeysFor(k)
  {
    match key
    case Escape => Some(Egui.Escape)
    case Insert => Some(Egui.Insert)
    case Home => Some(Egui.Home)
    case Delete => Some(Egui.Delete)
    case End => Some(Egui.End)
    case PageDown => Some(Egui.PageDown)
    case PageUp => Some(Egui.PageUp)
    case Left => Some(Egui.Left)
    case Up => Some(Egui.Up)
    case Right => Some(Egui.Right)
    case Down => Some(Egui.Down)
    case Back => Some(Egui.Backspace)
    case Return => Some(Egui.Enter)
    case Tab => Some(Egui.Tab)
    case LAlt => Some(Egui.Alt)
    case RAlt => Some(Egui.Alt)
    case LShift => Some(Egui.Shift)
    case RShift => Some(Egui.Shift)
    case LControl => Some(Egui.Control)
    case RControl => Some(Egui.Control)
    case LWin => Some(Egui.Logo)
    case RWin => Some(Egui.Logo)
    case _ => None
  }

  /** The key table read the other way: the virtual keys that stand for each egui key. */
  function KeysFor(k: Egui.Key): set<Winit.VirtualKeyCode> {
    match k
    case Alt => {Winit.LAlt, Winit.RAlt}
    case Backspace => {Winit.Back}
    case Control => {Winit.LControl, Winit.RControl}
    case Delete => {Winit.Delete}
    case Down => {Winit.Down}
    case End => {Winit.End}
    case Enter => {Winit.Return}
    case Escape => {Winit.Escape}
    case Home => {Winit.Home}
    case Insert => {Winit.Insert}
    case Left => {Winit.Left}
    case Logo => {Winit.LWin, Winit.RWin}
    case PageDown => {Winit.PageDown}
    case PageUp => {Winit.PageUp}
    case Right => {Winit.Right}
    case Shift => {Winit.LShift, Winit.RShift}
    case Tab => {Winit.Tab}
    case Up => {Winit.Up}
  }

  /** Left and right modifier keys are the same egui key. */
  lemma ModifierKeysAreMerged()
    ensures TranslateVirtualKeyCode(Winit.LAlt) == TranslateVirtualKeyCode(Winit.RAlt) == Some(Egui.Alt)
    ensures TranslateVirtualKeyCode(Winit.LShift) == TranslateVirtualKeyCode(Winit.RShift) == Some(Egui.Shift)
    ensures TranslateVirtualKeyCode(Winit.LControl) == TranslateVirtualKeyCode(Winit.RControl) == Some(Egui.Control)
    ensures TranslateVirtualKeyCode(Winit.LWin) == TranslateVirtualKeyCode(Winit.RWin) == Some(Egui.Logo)
  {
  }

  /** Keys outside the table, among them Space and the letters, are dropped. */
  lemma UnlistedKeysAreDropped(key: Winit.VirtualKeyCode)
    requires key.Space? || key.Q? || key.Paste? || key.Copy? || key.Cut? || key.OtherKey?
    ensures TranslateVirtualKeyCode(key).None?
    ensures forall k: Egui.Key :: key !in KeysFor(k)
  {
  }

  // --------------------------------------------------------------------------
  // translate_cursor

  /** Maps egui's cursor icon to the platform's. */
  function TranslateCursor(icon: Egui.CursorIcon): (w: Winit.CursorIcon)
    ensures !w.OtherCursor?
  {
    match icon
    case Default => Winit.Default
    case PointingHand => Winit.Hand
    case ResizeHorizontal => Winit.EwResize
    case ResizeNeSw => Winit.NeswResize
    case ResizeNwSe => Winit.NwseResize
    case ResizeVertical => Winit.NsResize
    case Text => Winit.Text
  }

  /** The cursor table read backwards: which egui icon, if any, a platform icon comes from. */
  function CursorFromPlatform(w: Winit.CursorIcon): Option<Egui.CursorIcon> {
    match w
    case Default => Some(Egui.CursorIcon.Default)
    case Hand => Some(Egui.PointingHand)
    case EwResize => Some(Egui.ResizeHorizontal)
    case NeswResize => Some(Egui.ResizeNeSw)
    case NwseResize => Some(Egui.ResizeNwSe)
    case NsResize => Some(Egui.ResizeVertical)
    case Text => Some(Egui.CursorIcon.Text)
    case OtherCursor(_) => None
  }

  /** translate_cursor is total and one-to-one: the backward table undoes it, and agrees with it. */
  lemma TranslateCursorRoundTrip(icon: Egui.CursorIcon, w: Winit.CursorIcon)
    ensures CursorFromPlatform(TranslateCursor(icon)) == Some(icon)
    ensures CursorFromPlatform(w) == Some(icon) ==> TranslateCursor(icon) == w
  {
  }

  lemma TranslateCursorInjective(a: Egui.CursorIcon, b: Egui.CursorIcon)
    ensures TranslateCursor(a) == TranslateCursor(b) ==> a == b
  {
    TranslateCursorRoundTrip(a, TranslateCursor(a));
    TranslateCursorRoundTrip(b, TranslateCursor(b));
  }

  // --------------------------------------------------------------------------
  // handle_output

  /** A platform action the backend attempts after a frame; a failure is only logged. */
  datatype PlatformAction =
    | OpenUrl(url: string)
    | SetClipboard(text: string)
    | SetCursorIcon(icon: Winit.CursorIcon)

  /**
   * The actions handle_output attempts, in order: open the requested URL,
   * copy non-empty copied text to the clipboard when one exists, and always
   * set the cursor icon last.
   */
  function HandleOutput(output: Egui.Output, hasClipboard: bool): (actions: seq<PlatformAction>)
    ensures |actions| ==
      1 + (if output.openUrl.Some? then 1 else 0)
        + (if output.copiedText != [] && hasClipboard then 1 else 0)
    ensures actions[|actions| - 1] == SetCursorIcon(TranslateCursor(output.cursorIcon))
    ensures output.openUrl.Some? ==> actions[0] == OpenUrl(output.openUrl.value)
    ensures forall u :: OpenUrl(u) in actions <==> output.openUrl == Some(u)
    ensures forall t :: SetClipboard(t) in actions <==> t == output.copiedText && t != [] && hasClipboard
  {
    var open := match output.openUrl
      case Some(url) => [OpenUrl(url)]
      case None => [];
    var copy := if output.copiedText != [] && hasClipboard then [SetClipboard(output.copiedText)] else [];
    open + copy + [SetCursorIcon(TranslateCursor(output.cursorIcon))]
  }

  // --------------------------------------------------------------------------
  // input_to_egui: the translation as a function of values

  /** The fields of egui's RawInput that the translator writes. */
  datatype RawInputValue = RawInputValue(
    screenSize: Egui.Vec2,
    pixelsPerPoint: Option<real>,
    mousePos: Option<Egui.Pos2>,
    mouseDown: bool,
    scrollDelta: Egui.Vec2,
    events: seq<Egui.Event>)

  /** A recorded scale factor is positive (winit only reports positive ones). */
  predicate ValidScale(ppp: Option<real>) {
    ppp.Some? ==> ppp.value > 0.0
  }

  /** Events whose handling unwraps pixels_per_point. */
  predicate NeedsScale(event: Winit.WindowEvent) {
    event.Resized? || event.CursorMoved?
  }

  /** input_to_egui does not panic: a scale is known wherever it is unwrapped. */
  predicate CanTranslate(event: Winit.WindowEvent, input: RawInputValue) {
    && Winit.WellFormed(event)
    && ValidScale(input.pixelsPerPoint)
    && (NeedsScale(event) ==> input.pixelsPerPoint.Some?)
  }

  /** The two ways an event asks the loop to exit: closing the window, or Logo+Q. */
  predicate ExitRequested(event: Winit.WindowEvent, modifierState: Winit.ModifiersState) {
    || event.CloseRequested?
    || event.Destroyed?
    || (event.KeyboardInput? && event.virtualKeycode == Some(Winit.Q) && modifierState.logo)
  }

  /** The events one key report queues (pressed or released alike for Copy, Cut and Paste). */
  function KeyEvents(key: Winit.VirtualKeyCode, state: Winit.ElementState, clipboard: ClipboardRead): (evs: seq<Egui.Event>)
    ensures |evs| <= 1
    ensures key == Winit.Copy ==> evs == [Egui.Copy]
    ensures key == Winit.Cut ==> evs == [Egui.Cut]
    ensures key == Winit.Paste ==> (evs != [] <==> clipboard.Some? && clipboard.value.Ok?)
    ensures key == Winit.Paste && evs != [] ==> evs == [Egui.Event.Text(clipboard.value.value)]
    ensures key != Winit.Paste && key != Winit.Copy && key != Winit.Cut ==>
      (evs != [] <==> TranslateVirtualKeyCode(key).Some?)
    ensures TranslateVirtualKeyCode(key).Some? ==>
      evs == [Egui.Key(TranslateVirtualKeyCode(key).value, state == Winit.Pressed)]
    ensures forall e :: e in evs && e.Key? ==> key in KeysFor(e.key) && (e.pressed <==> state == Winit.Pressed)
  {
    match key
    case Paste =>
      (match clipboard
       case Some(Ok(contents)) => [Egui.Event.Text(contents)]
       case _ => [])
    case Copy => [Egui.Copy]
    case Cut => [Egui.Cut]
    case _ =>
      (match TranslateVirtualKeyCode(key)
       case Some(k) => [Egui.Key(k, state == Winit.Pressed)]
       case None => [])
  }

  /** Everything input_to_egui writes: the raw input, the control flow, the modifier register. */
  datatype Translation = Translation(
    input: RawInputValue,
    controlFlow: Winit.ControlFlow,
    modifierState: Winit.ModifiersState)

  /**
   * One step of input_to_egui. The ensures clauses give the step's
   * invariants: the scale stays valid, the control flow becomes Exit
   * exactly when the event asks for it, only ModifiersChanged touches the
   * modifier register, and events are only ever appended, at most one each.
   */
  function Translate(
    event: Winit.WindowEvent, clipboard: ClipboardRead, input: RawInputValue,
    controlFlow: Winit.ControlFlow, modifierState: Winit.ModifiersState): (t: Translation)
    requires CanTranslate(event, input)
    ensures ValidScale(t.input.pixelsPerPoint)
    ensures input.pixelsPerPoint.Some? ==> t.input.pixelsPerPoint.Some?
    ensures t.controlFlow == if ExitRequested(event, modifierState) then Winit.Exit else controlFlow
    ensures t.modifierState == if event.ModifiersChanged? then event.modifiers else modifierState
    ensures input.events <= t.input.events && |t.input.events| <= |input.events| + 1
  {
    match event
    case CloseRequested => Translation(input, Winit.Exit, modifierState)
    case Destroyed => Translation(input, Winit.Exit, modifierState)
    case Resized(size) =>
      var ppp := input.pixelsPerPoint.value;
      var screen := Egui.Vec2(size.width as real / ppp, size.height as real / ppp);
      Translation(input.(screenSize := screen), controlFlow, modifierState)
    case ScaleFactorChanged(s, size) =>
      var screen := Egui.Vec2(size.width as real / s, size.height as real / s);
      Translation(input.(pixelsPerPoint := Some(s), screenSize := screen), controlFlow, modifierState)
    case MouseInput(state) =>
      Translation(input.(mouseDown := state == Winit.Pressed), controlFlow, modifierState)
    case CursorMoved(x, y) =>
      var ppp := input.pixelsPerPoint.value;
      Translation(input.(mousePos := Some(Egui.Pos2(x / ppp, y / ppp))), controlFlow, modifierState)
    case CursorLeft =>
      Translation(input.(mousePos := None), controlFlow, modifierState)
    case ReceivedCharacter(ch) =>
      var events := if PrintableChar(ch) then input.events + [Egui.Event.Text([ch])] else input.events;
      Translation(input.(events := events), controlFlow, modifierState)
    case ModifiersChanged(m) => Translation(input, controlFlow, m)
    case KeyboardInput(state, virtualKeycode) =>
      (match virtualKeycode
       case None => Translation(input, controlFlow, modifierState)
       case Some(key) =>
         var flow := if modifierState.logo && key == Winit.Q then Winit.Exit else controlFlow;
         Translation(input.(events := input.events + KeyEvents(key, state, clipboard)), flow, modifierState))
    case MouseWheel(delta) =>
      var scroll := match delta
        case LineDelta(x, y) => Egui.Vec2(x * LineHeight, y * LineHeight)
        case PixelDelta(x, y) => Egui.Vec2(x, y);
      Translation(input.(scrollDelta := scroll), controlFlow, modifierState)
    case OtherWindowEvent => Translation(input, controlFlow, modifierState)
  }

  // --------------------------------------------------------------------------
  // Properties of one translation step

  /** A printable character queues exactly one text event; any other character changes nothing. */
  lemma ReceivedCharacterQueuesText(
    ch: char, clipboard: ClipboardRead, input: RawInputValue,
    controlFlow: Winit.ControlFlow, modifierState: Winit.ModifiersState)
    requires ValidScale(input.pixelsPerPoint)
    ensures var t := Translate(Winit.ReceivedCharacter(ch), clipboard, input, controlFlow, modifierState);
      && t.controlFlow == controlFlow && t.modifierState == modifierState
      && (PrintableChar(ch) ==> t.input == input.(events := input.events + [Egui.Event.Text([ch])]))
      && (!PrintableChar(ch) ==> t.input == input)
  {
  }

  /**
   * A key report whose virtual key is known: Copy and Cut queue exactly
   * Copy and Cut, pressed or released; Paste queues the clipboard's
   * contents only when a clipboard exists and the read succeeds; a key of
   * the table queues a key event, pressed iff the state is Pressed; any
   * other key queues nothing. Only the events change, and the control flow
   * on Logo+Q.
   */
  lemma KeyboardInputQueues(
    key: Winit.VirtualKeyCode, state: Winit.ElementState, clipboard: ClipboardRead,
    input: RawInputValue, controlFlow: Winit.ControlFlow, modifierState: Winit.ModifiersState)
    requires ValidScale(input.pixelsPerPoint)
    ensures var t := Translate(Winit.KeyboardInput(state, Some(key)), clipboard, input, controlFlow, modifierState);
      && t.input == input.(events := t.input.events)
      && t.modifierState == modifierState
      && t.controlFlow == (if modifierState.logo && key == Winit.Q then Winit.Exit else controlFlow)
      && (key == Winit.Copy ==> t.input.events == input.events + [Egui.Copy])
      && (key == Winit.Cut ==> t.input.events == input.events + [Egui.Cut])
      && (key == Winit.Paste && clipboard.Some? && clipboard.value.Ok? ==>
            t.input.events == input.events + [Egui.Event.Text(clipboard.value.value)])
      && (key == Winit.Paste && !(clipboard.Some? && clipboard.value.Ok?) ==> t.input.events == input.events)
      && (TranslateVirtualKeyCode(key).Some? ==>
            t.input.events == input.events + [Egui.Key(TranslateVirtualKeyCode(key).value, state == Winit.Pressed)])
      && (TranslateVirtualKeyCode(key).None? && key !in {Winit.Copy, Winit.Cut, Winit.Paste} ==>
            t.input.events == input.events)
  {
  }

  /** A key report without a virtual key does nothing at all. */
  lemma KeyboardInputWithoutKeycodeIsIgnored(
    state: Winit.ElementState, clipboard: ClipboardRead, input: RawInputValue,
    controlFlow: Winit.ControlFlow, modifierState: Winit.ModifiersState)
    requires ValidScale(input.pixelsPerPoint)
    ensures Translate(Winit.KeyboardInput(state, None), clipboard, input, controlFlow, modifierState)
         == Translation(input, controlFlow, modifierState)
  {
  }

  /** ModifiersChanged replaces the modifier register and nothing else; unlisted events change nothing. */
  lemma ModifiersChangedOnlyUpdatesRegister(
    m: Winit.ModifiersState, clipboard: ClipboardRead, input: RawInputValue,
    controlFlow: Winit.ControlFlow, modifierState: Winit.ModifiersState)
    requires ValidScale(input.pixelsPerPoint)
    ensures Translate(Winit.ModifiersChanged(m), clipboard, input, controlFlow, modifierState)
         == Translation(input, controlFlow, m)
    ensures Translate(Winit.OtherWindowEvent, clipboard, input, controlFlow, modifierState)
         == Translation(input, controlFlow, modifierState)
  {
  }

  /** A wheel event overwrites the scroll delta: 24 points per line, or the pixel delta as it is. */
  lemma MouseWheelOverwritesScroll(
    delta: Winit.MouseScrollDelta, clipboard: ClipboardRead, input: RawInputValue,
    controlFlow: Winit.ControlFlow, modifierState: Winit.ModifiersState)
    requires ValidScale(input.pixelsPerPoint)
    ensures var t := Translate(Winit.MouseWheel(delta), clipboard, input, controlFlow, modifierState);
      && t.controlFlow == controlFlow && t.modifierState == modifierState
      && (delta.LineDelta? ==> t.input == input.(scrollDelta := Egui.Vec2(24.0 * delta.lines, 24.0 * delta.rows)))
      && (delta.PixelDelta? ==> t.input == input.(scrollDelta := Egui.Vec2(delta.dx, delta.dy)))
  {
  }

  /** MouseInput sets the button flag iff Pressed, whatever it was; CursorLeft forgets the pointer. */
  lemma ButtonAndLeaveOverwrite(
    state: Winit.ElementState, clipboard: ClipboardRead, input: RawInputValue,
    controlFlow: Winit.ControlFlow, modifierState: Winit.ModifiersState)
    requires ValidScale(input.pixelsPerPoint)
    ensures Translate(Winit.MouseInput(state), clipboard, input, controlFlow, modifierState)
         == Translation(input.(mouseDown := state == Winit.Pressed), controlFlow, modifierState)
    ensures Translate(Winit.CursorLeft, clipboard, input, controlFlow, modifierState)
         == Translation(input.(mousePos := None), controlFlow, modifierState)
  {
  }

  /**
   * A scale change records the scale and recomputes the logical screen
   * size; Resized and CursorMoved divide by the recorded scale.
   */
  lemma ScalingDividesByScaleFactor(
    event: Winit.WindowEvent, clipboard: ClipboardRead, input: RawInputValue,
    controlFlow: Winit.ControlFlow, modifierState: Winit.ModifiersState)
    requires CanTranslate(event, input)
    requires event.ScaleFactorChanged? || event.Resized? || event.CursorMoved?
    ensures var t := Translate(event, clipboard, input, controlFlow, modifierState);
      && t.controlFlow == controlFlow && t.modifierState == modifierState
      && (event.ScaleFactorChanged? ==>
            && t.input.pixelsPerPoint == Some(event.scaleFactor)
            && t.input.screenSize.x * event.scaleFactor == event.newInnerSize.width as real
            && t.input.screenSize.y * event.scaleFactor == event.newInnerSize.height as real
            && t.input == input.(pixelsPerPoint := t.input.pixelsPerPoint, screenSize := t.input.screenSize))
      && (event.Resized? ==>
            && t.input.screenSize.x * input.pixelsPerPoint.value == event.size.width as real
            && t.input.screenSize.y * input.pixelsPerPoint.value == event.size.height as real
            && t.input == input.(screenSize := t.input.screenSize))
      && (event.CursorMoved? ==>
            && t.input.mousePos.Some?
            && t.input.mousePos.value.x * input.pixelsPerPoint.value == event.x
            && t.input.mousePos.value.y * input.pixelsPerPoint.value == event.y
            && t.input == input.(mousePos := t.input.mousePos))
  {
  }

  /** Worked examples: a resize to 1600x1200 at scale 2 gives 800x600 points; three lines down scroll 72 points. */
  lemma WorkedExamples(input: RawInputValue, controlFlow: Winit.ControlFlow, modifierState: Winit.ModifiersState)
    requires input.pixelsPerPoint == Some(2.0)
    ensures Translate(Winit.Resized(Winit.PhysicalSize(1600, 1200)), None, input, controlFlow, modifierState).input.screenSize
         == Egui.Vec2(800.0, 600.0)
    ensures Translate(Winit.MouseWheel(Winit.LineDelta(0.0, 3.0)), None, input, controlFlow, modifierState).input.scrollDelta
         == Egui.Vec2(0.0, 72.0)
    ensures Translate(Winit.ReceivedCharacter('\U{E000}'), None, input, controlFlow, modifierState).input.events
         == input.events
    ensures Translate(Winit.ReceivedCharacter('\n'), None, input, controlFlow, modifierState).input.events
         == input.events
  {
  }

  // --------------------------------------------------------------------------
  // Translating a run of events

  /** A recorded scale is known and positive, as it is once the loop has started. */
  predicate ScaleKnown(input: RawInputValue) {
    input.pixelsPerPoint.Some? && input.pixelsPerPoint.value > 0.0
  }

  predicate AllWellFormed(trace: seq<(Winit.WindowEvent, ClipboardRead)>) {
    forall i :: 0 <= i < |trace| ==> Winit.WellFormed(trace[i].0)
  }

  /** input_to_egui applied to each event of `trace` in turn, the scale staying known throughout. */
  function TranslateAll(
    trace: seq<(Winit.WindowEvent, ClipboardRead)>, input: RawInputValue,
    controlFlow: Winit.ControlFlow, modifierState: Winit.ModifiersState): (t: Translation)
    requires ScaleKnown(input) && AllWellFormed(trace)
    ensures ScaleKnown(t.input)
    decreases |trace|
  {
    if trace == [] then Translation(input, controlFlow, modifierState)
    else
      var step := Translate(trace[0].0, trace[0].1, input, controlFlow, modifierState);
      TranslateAll(trace[1..], step.input, step.controlFlow, step.modifierState)
  }

  /** Translating one more event extends a run by one step. */
  lemma {:induction false} TranslateAllSnoc(
    trace: seq<(Winit.WindowEvent, ClipboardRead)>, last: (Winit.WindowEvent, ClipboardRead),
    input: RawInputValue, controlFlow: Winit.ControlFlow, modifierState: Winit.ModifiersState)
    requires ScaleKnown(input) && AllWellFormed(trace + [last])
    ensures AllWellFormed(trace) && Winit.WellFormed(last.0)
    ensures var before := TranslateAll(trace, input, controlFlow, modifierState);
      TranslateAll(trace + [last], input, controlFlow, modifierState)
        == Translate(last.0, last.1, before.input, before.controlFlow, before.modifierState)
    decreases |trace|
  {
    assert forall i :: 0 <= i < |trace| ==> trace[i] == (trace + [last])[i];
    assert (trace + [last])[|trace|] == last;
    if trace != [] {
      var step := Translate(trace[0].0, trace[0].1, input, controlFlow, modifierState);
      assert (trace + [last])[1..] == trace[1..] + [last];
      TranslateAllSnoc(trace[1..], last, step.input, step.controlFlow, step.modifierState);
    }
  }

  /** Over any run of events the queue only grows, by at most one event per window event. */
  lemma {:induction false} EventsOnlyGrow(
    trace: seq<(Winit.WindowEvent, ClipboardRead)>, input: RawInputValue,
    controlFlow: Winit.ControlFlow, modifierState: Winit.ModifiersState)
    requires ScaleKnown(input) && AllWellFormed(trace)
    ensures var t := TranslateAll(trace, input, controlFlow, modifierState);
      input.events <= t.input.events && |t.input.events| <= |input.events| + |trace|
    decreases |trace|
  {
    if trace != [] {
      var step := Translate(trace[0].0, trace[0].1, input, controlFlow, modifierState);
      EventsOnlyGrow(trace[1..], step.input, step.controlFlow, step.modifierState);
    }
  }

  /** The modifier register as the most recent ModifiersChanged in `trace` left it. */
  function LatestModifiers(trace: seq<(Winit.WindowEvent, ClipboardRead)>, initial: Winit.ModifiersState): Winit.ModifiersState
  {
    if trace == [] then initial
    else if trace[|trace| - 1].0.ModifiersChanged? then trace[|trace| - 1].0.modifiers
    else LatestModifiers(trace[..|trace| - 1], initial)
  }

  /** After any run of events the register holds the latest reported modifiers. */
  lemma {:induction false} ModifiersFollowLatestChange(
    trace: seq<(Winit.WindowEvent, ClipboardRead)>, input: RawInputValue,
    controlFlow: Winit.ControlFlow, modifierState: Winit.ModifiersState)
    requires ScaleKnown(input) && AllWellFormed(trace)
    ensures TranslateAll(trace, input, controlFlow, modifierState).modifierState == LatestModifiers(trace, modifierState)
    decreases |trace|
  {
    if trace != [] {
      var init := trace[..|trace| - 1];
      var last := trace[|trace| - 1];
      assert init + [last] == trace;
      TranslateAllSnoc(init, last, input, controlFlow, modifierState);
      ModifiersFollowLatestChange(init, input, controlFlow, modifierState);
    }
  }

  // --------------------------------------------------------------------------
  // input_to_egui: the in-place translator

  /** egui's RawInput, the accumulator the translator writes in place. */
  class RawInput {
    var screenSize: Egui.Vec2
    var pixelsPerPoint: Option<real>
    var mousePos: Option<Egui.Pos2>
    var mouseDown: bool
    var scrollDelta: Egui.Vec2
    var events: seq<Egui.Event>

    function Value(): RawInputValue
      reads this
    {
      RawInputValue(screenSize, pixelsPerPoint, mousePos, mouseDown, scrollDelta, events)
    }

    /**
     * make_raw_input: the logical screen size and scale of a window of
     * `innerSize` physical pixels at `scaleFactor`, and otherwise egui's
     * defaults (no pointer, button up, no scroll, no events).
     */
    constructor (innerSize: Winit.PhysicalSize, scaleFactor: real)
      requires scaleFactor > 0.0
      ensures ScaleKnown(Value())
      ensures pixelsPerPoint == Some(scaleFactor)
      ensures screenSize.x * scaleFactor == innerSize.width as real
      ensures screenSize.y * scaleFactor == innerSize.height as real
      ensures mousePos == None && !mouseDown && scrollDelta == Egui.Vec2(0.0, 0.0) && events == []
    {
      screenSize := Egui.Vec2(innerSize.width as real / scaleFactor, innerSize.height as real / scaleFactor);
      pixelsPerPoint := Some(scaleFactor);
      mousePos := None;
      mouseDown := false;
      scrollDelta := Egui.Vec2(0.0, 0.0);
      events := [];
    }
  }

  /** The key-dependent part of a key report: queues KeyEvents(key, state, clipboard). */
  method QueueKeyEvents(key: Winit.VirtualKeyCode, state: Winit.ElementState, clipboard: ClipboardRead, rawInput: RawInput)
    modifies rawInput
    ensures rawInput.Value() == old(rawInput.Value()).(events := old(rawInput.events) + KeyEvents(key, state, clipboard))
  {
    if key == Winit.Paste {
      if clipboard.Some? {
        match clipboard.value {
          case Ok(contents) =>
            rawInput.events := rawInput.events + [Egui.Event.Text(contents)];
          case Err(_) =>
            // the error is only logged
        }
      }
    } else if key == Winit.Copy {
      rawInput.events := rawInput.events + [Egui.Copy];
    } else if key == Winit.Cut {
      rawInput.events := rawInput.events + [Egui.Cut];
    } else {
      var k := TranslateVirtualKeyCode(key);
      if k.Some? {
        rawInput.events := rawInput.events + [Egui.Key(k.value, state == Winit.Pressed)];
      }
    }
  }

  /**
   * input_to_egui: applies one window event to `rawInput` in place and
   * returns the new control flow and modifier register (the source's
   * `&mut` parameters), exactly as Translate describes.
   */
  method InputToEgui(
    event: Winit.WindowEvent, clipboard: ClipboardRead, rawInput: RawInput,
    controlFlow: Winit.ControlFlow, modifierState: Winit.ModifiersState)
    returns (controlFlow': Winit.ControlFlow, modifierState': Winit.ModifiersState)
    requires CanTranslate(event, rawInput.Value())
    modifies rawInput
    ensures Translation(rawInput.Value(), controlFlow', modifierState')
         == Translate(event, clipboard, old(rawInput.Value()), controlFlow, modifierState)
  {
    controlFlow', modifierState' := controlFlow, modifierState;
    match event {
      case CloseRequested =>
        controlFlow' := Winit.Exit;
      case Destroyed =>
        controlFlow' := Winit.Exit;
      case Resized(size) =>
        var ppp := rawInput.pixelsPerPoint.value;
        rawInput.screenSize := Egui.Vec2(size.width as real / ppp, size.height as real / ppp);
      case ScaleFactorChanged(s, size) =>
        rawInput.pixelsPerPoint := Some(s);
        rawInput.screenSize := Egui.Vec2(size.width as real / s, size.height as real / s);
      case MouseInput(state) =>
        rawInput.mouseDown := state == Winit.Pressed;
      case CursorMoved(x, y) =>
        var ppp := rawInput.pixelsPerPoint.value;
        rawInput.mousePos := Some(Egui.Pos2(x / ppp, y / ppp));
      case CursorLeft =>
        rawInput.mousePos := None;
      case ReceivedCharacter(ch) =>
        if PrintableChar(ch) {
          rawInput.events := rawInput.events + [Egui.Event.Text([ch])];
        }
      case ModifiersChanged(m) =>
        modifierState' := m;
      case KeyboardInput(state, virtualKeycode) =>
        if virtualKeycode.Some? {
          var key := virtualKeycode.value;
          if modifierState.logo && key == Winit.Q {
            controlFlow' := Winit.Exit;
          }
          QueueKeyEvents(key, state, clipboard, rawInput);
        }
      case MouseWheel(delta) =>
        match delta {
          case LineDelta(x, y) =>
            rawInput.scrollDelta := Egui.Vec2(x * LineHeight, y * LineHeight);
          case PixelDelta(x, y) =>
            rawInput.scrollDelta := Egui.Vec2(x, y);
        }
      case OtherWindowEvent =>
    }
  }
}
