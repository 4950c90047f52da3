/** The part of the egui library's vocabulary the core produces and consumes. */
module Egui {
  import opened Wrappers

  /** A vector in logical points. */
  datatype Vec2 = Vec2(x: real, y: real)

  /** A position in logical points. */
  datatype Pos2 = Pos2(x: real, y: real)

  /** Keys egui understands. */
  datatype Key =
    | Alt | Backspace | Control | Delete | Down | End | Enter | Escape | Home
    | Insert | Left | Logo | PageDown | PageUp | Right | Shift | Tab | Up

  /** Discrete input events queued for the next frame. */
  datatype Event = Copy | Cut | Text(text: string) | Key(key: Key, pressed: bool)

  /** Cursor icons egui asks for. */
  datatype CursorIcon =
    | Default | PointingHand | ResizeHorizontal | ResizeNeSw | ResizeNwSe | ResizeVertical | Text

  /** What a frame's UI pass asks the backend to do. */
  datatype Output = Output(cursorIcon: CursorIcon, openUrl: Option<string>, copiedText: string, needsRepaint: bool)

  /** Continuous redraws every frame; Reactive redraws on input or when the UI asks. */
  datatype RunMode = Continuous | Reactive
}
