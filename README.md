# egui on winit + wgpu: input translation, frame scheduling and persistence

This project models the sequential core of an egui backend for winit and wgpu:

- **Input translator** (`src/lib.rs`). `input_to_egui` turns one winit window event into updates of egui's `RawInput` accumulator, the loop's control flow and a modifier-key register. Around it sit three tables: `printable_char`, `translate_virtual_key_code` and `translate_cursor`. There is also the decision part of `handle_output`.
- **Backend and scheduler** (`src/backend.rs`). `WGpuBackend` holds the run mode, the sticky quit flag and the frame-time log. The `run` event-loop callback decides each tick's control flow and whether a redraw is requested. It also resizes the swap chain, opens the window from stored geometry, and stores geometry and memory on exit.
- **Persistence** (`src/storage.rs`). `FileStorage` is a string map with a dirty bit, written to its file only when dirty. `WindowSettings` is the stored window geometry, applied to a window builder (size) and to the built window (position).

Modules: `Wrappers` (Option, Result), `Winit` and `Egui` (the parts of the two libraries the core uses, including an abstract window and builder), `Input`, `Backend` and `Storage`.

State that the source updates in place is a class:
- `Input.RawInput`
- `Backend.WGpuBackend`
- `Backend.EventLoop` (the callback's captured state)
- `Storage.FileStorage`

`RawInput`, `WGpuBackend` and `FileStorage` each have a function that gives their value, and each of their methods' `ensures` ties the new value to a pure function of the old one. The `EventLoop` methods are tied to the same functions through the objects they hold:
- `Input.Translate`
- `Backend.Apply` and `Backend.Schedule`
- `Storage.Store.Set` and `Storage.Store.Save`

The lemmas are proved about those functions, including properties of whole runs of events and calls (proved by induction).

Modelling choices:
- f32/f64 arithmetic is exact `real` arithmetic.
- winit's conversion of a requested f64 pixel value is `f64::round` (halves away from zero), and negative sizes become 0. These are `Winit.Round` and `Winit.RoundToPixels`.
- Platform queries, clocks and collaborators are parameters:
  - the clipboard read outcome
  - whether a clipboard exists
  - whether a frame could be acquired
  - the UI pass's `Output` and its timing
  - the window's size, position and scale factor
  - the storage file's contents
  - the JSON serialiser of window settings.
- `VirtualKeyCode` has a constructor for every key the source names, plus `Space`. `OtherKey(code)` stands for each remaining winit key.
- winit guarantees positive scale factors, so `ScaleFactorChanged` is required to carry one (`Winit.WellFormed`).
- `Resized` and `CursorMoved` unwrap `pixels_per_point`, so they require it to be known (`Input.CanTranslate`).

Notes on the code's behaviour:
- A quit request leads to `Exit` only after a frame was acquired and rendered. When acquisition fails, the tick ends with `Wait` even with quit set (src/backend.rs:129-135).
- Every window event requests a redraw (src/backend.rs:195).
- `src/painter.rs` has no live texture cache or scissor clipping; those exist there only as commented-out code.

Helper without a row of its own: `Backend.MainWindowBuilder` (src/backend.rs:56-60) is the builder `Backend.OpenWindow` starts from.

## Model

| member | source | states |
|---|---|---|
| `Input.PrintableChar` | src/lib.rs:114-124 | A character is kept exactly when its code point is outside the ASCII controls and the three private-use ranges. The ensures lists the kept ranges explicitly. |
| `Input.PrivateUseAreaIsNotPrintable` | src/lib.rs:118-123 | Every code point in U+E000–U+F8FF, U+F0000–U+FFFFD and U+100000–U+10FFFD is dropped. |
| `Input.ControlCharactersAreNotPrintable` | src/lib.rs:114-123 | Every ASCII control character is dropped, '\r', '\n' and '\t' among them. |
| `Input.OtherCharactersArePrintable` | src/lib.rs:118-123 | Every other character is kept. |
| `Input.TranslateVirtualKeyCode` | src/lib.rs:126-155 | The key map sends a virtual key to an egui key exactly when that key is in the egui key's entry of the backward table, so each mapped key has exactly one egui key and unlisted keys map to None. |
| `Input.ModifierKeysAreMerged` | src/lib.rs:146-149 | Left and right Alt, Shift, Control and Win each map to the same single egui key. |
| `Input.UnlistedKeysAreDropped` | src/lib.rs:143-153 | Space, Q, Paste, Copy, Cut and every other unlisted key map to None, and appear in no egui key's source set. |
| `Input.TranslateCursor` | src/lib.rs:157-167 | The cursor map is total and always gives one of the seven platform icons the core uses. |
| `Input.TranslateCursorRoundTrip` | src/lib.rs:157-167 | The backward cursor table undoes the map, and agrees with it wherever it is defined. |
| `Input.TranslateCursorInjective` | src/lib.rs:157-167 | Distinct egui cursor icons map to distinct platform icons. |
| `Input.HandleOutput` | src/lib.rs:169-189 | The URL is opened iff one was requested, and that comes first. The clipboard is set iff the copied text is non-empty and a clipboard exists. The translated cursor icon is always set, last. No other action is attempted. |
| `Input.Translate` | src/lib.rs:22-112 | One translation step keeps the recorded scale positive and known. Control flow becomes Exit exactly on CloseRequested/Destroyed or Logo+Q, and is left as it was otherwise. Only ModifiersChanged writes the modifier register. Events are only appended, at most one per window event. |
| `Input.ReceivedCharacterQueuesText` | src/lib.rs:58-62 | A printable character appends exactly `Text(ch)`. Any other character leaves the raw input unchanged. |
| `Input.KeyboardInputQueues` | src/lib.rs:64-93 | Copy and Cut append exactly Copy/Cut, pressed or released. Paste appends the clipboard text only if a clipboard exists and the read succeeds. A mapped key appends `Key(key, pressed)`, with pressed iff the state is Pressed. Other keys append nothing. Only the raw input's events change, and the control flow becomes Exit on Logo+Q. |
| `Input.KeyEvents` | src/lib.rs:70-93 | A key report queues at most one event. Copy and Cut give exactly Copy/Cut. Paste gives the clipboard text iff the read succeeded. Any other key gives an event iff it has an egui key, and that event is the key's own table entry, pressed iff the state is Pressed. |
| `Input.KeyboardInputWithoutKeycodeIsIgnored` | src/lib.rs:64-65 | A key report without a virtual key code changes nothing. |
| `Input.ModifiersChangedOnlyUpdatesRegister` | src/lib.rs:63-110 | ModifiersChanged replaces the modifier register and nothing else. An unlisted event changes nothing at all. |
| `Input.MouseWheelOverwritesScroll` | src/lib.rs:96-106 | A wheel event overwrites the scroll delta: 24 points per line for a line delta, the delta as it is for a pixel delta. Nothing else changes. |
| `Input.ButtonAndLeaveOverwrite` | src/lib.rs:46-57 | MouseInput sets the button flag iff Pressed. CursorLeft sets the pointer position to None. Nothing else changes. |
| `Input.ScalingDividesByScaleFactor` | src/lib.rs:33-54 | ScaleFactorChanged records the scale and sets the screen size to the new physical size divided by it. Resized and CursorMoved divide by the recorded scale. Nothing else changes. |
| `Input.WorkedExamples` | src/lib.rs:33-123 | Resizing to 1600x1200 at scale 2 gives an 800x600 screen. A line delta (0, 3) scrolls (0, 72). A private-use character and '\n' queue no text. |
| `Input.TranslateAll` | src/lib.rs:22-112 | Over any run of window events the recorded scale stays known and positive, so no step can panic. |
| `Input.EventsOnlyGrow` | src/lib.rs:58-93 | Over any run of window events the earlier queue is a prefix of the later one, which grows by at most one event per window event. |
| `Input.ModifiersFollowLatestChange` | src/lib.rs:63 | After any run of window events the register holds the modifiers of the latest ModifiersChanged, or its initial value if there was none. |
| `Input.RawInput.constructor` | src/lib.rs:210-220 | The initial raw input records the scale factor and the inner size divided by it. It has no pointer, no button pressed, no scroll and no events. |
| `Input.QueueKeyEvents` | src/lib.rs:70-93 | The key-dependent part of a key report appends exactly the events of that key and changes nothing else. |
| `Input.InputToEgui` | src/lib.rs:22-112 | The in-place translator leaves the raw input, control flow and modifier register exactly as `Translate` says. |
| `Storage.ReadJson` | src/storage.rs:41-61 | A file that is missing or does not parse yields None. A parsed file yields its map. |
| `Storage.Load` | src/storage.rs:14-16 | The starting map is the file's map, or the empty map when there is none. |
| `Storage.Initial` | src/storage.rs:14-16 | A fresh store is clean and holds the loaded map (empty for a missing or unparsable file). |
| `Storage.Store.Get` | src/storage.rs:27-29 | A key reads back Some of its value iff it is present. |
| `Storage.Store.Set` | src/storage.rs:31-36 | Writing the value a key already has changes neither the map nor the dirty bit. Otherwise the key gets the value and the store becomes dirty. Every other key keeps its value. |
| `Storage.Store.Save` | src/storage.rs:18-23 | The map is written exactly when the store is dirty. Afterwards it is clean, with the same map. |
| `Storage.GetAfterSet` | src/storage.rs:27-36 | Reading a key right after writing it gives the written value. |
| `Storage.SaveIsIdempotent` | src/storage.rs:18-23 | A second save writes nothing and changes nothing. |
| `Storage.InitialIsInSync` | src/storage.rs:14-16 | A freshly loaded store agrees with its file. |
| `Storage.SaveSynchronises` | src/storage.rs:18-23 | After a save, reloading the file gives exactly the store's map. |
| `Storage.RunKeepsInSync` | src/storage.rs:18-36 | Over any sequence of set and save calls, whenever the store is clean, reloading its file gives exactly its map. So dirty tracking never loses a write. |
| `Storage.FileStorage.FromPath` | src/storage.rs:14-16 | The constructor records the path and starts from the loaded map, clean. |
| `Storage.FileStorage.GetString` | src/storage.rs:27-29 | A key reads back Some of its value iff it is present. |
| `Storage.FileStorage.SetString` | src/storage.rs:31-36 | The map becomes the old map with the key set. The store is dirty iff it was already dirty or the value changed. |
| `Storage.FileStorage.Save` | src/storage.rs:18-23 | The returned write is the map iff the store was dirty. The store is clean afterwards, with the same map. |
| `Storage.WindowSettings.FromDisplay` | src/storage.rs:98-107 | The settings always record Some inner size. They record no position exactly when the window reports none. |
| `Storage.WindowSettings.InitializeSize` | src/storage.rs:109-121 | The builder is unchanged when no size is stored. Otherwise it requests the stored inner size, and nothing else changes. |
| `Storage.WindowSettings.RestorePositions` | src/storage.rs:131-146 | The window moves to the stored outer position iff one is stored. |
| `Storage.WindowSettingsRoundTrip` | src/storage.rs:98-146 | Capture a window's settings, size a builder with them, build, then restore the position. The result has the old inner size, and the old outer position wherever one was reported. |
| `Backend.WGpuBackend.constructor` | src/backend.rs:20-23 | A new backend has the given run mode, is not quitting, and has no samples. |
| `Backend.WGpuBackend.CurrentRunMode` | src/backend.rs:27-29 | Returns the current run mode. |
| `Backend.WGpuBackend.SetRunMode` | src/backend.rs:31-33 | The run mode becomes the one given. The quit flag and the samples stay unchanged. |
| `Backend.WGpuBackend.Quit` | src/backend.rs:43-45 | The quit flag becomes true. The run mode and the samples stay unchanged. |
| `Backend.SetRunModeThenGet` | src/backend.rs:27-33 | After set_run_mode(m), run_mode is m and quit is unchanged. |
| `Backend.QuitOnlyByQuit` | src/backend.rs:43-45 | After any calls, quit is set iff it was set before or quit was called. Nothing resets it. |
| `Backend.RunModeIsLatestSet` | src/backend.rs:31-33 | After any calls, the run mode is the one most recently set, or the initial one. |
| `Backend.FrameTimesOnlyGrow` | src/backend.rs:126-127 | After any calls, the sample log is the earlier log followed by exactly the samples of the recorded frames, in order. So it only grows, by at most one sample per call. |
| `Backend.Schedule` | src/backend.rs:168-178 | After a rendered frame: Exit with no redraw iff quit, whatever the run mode. Otherwise Poll with a redraw in Continuous mode. Otherwise Wait, with a redraw iff the UI needs a repaint. |
| `Backend.QuitLeadsToExit` | src/backend.rs:168-169 | Once quit is set, every later rendered frame exits without a redraw, whatever the application calls meanwhile. |
| `Backend.OpenWindow` | src/backend.rs:56-67 | Without stored settings the window has the platform's default size and placement. With stored settings the builder is sized first and the built window is then placed (the placement step is src/backend.rs:97-99). |
| `Backend.ReopenRestoresGeometry` | src/backend.rs:62-99 | A window opened from the settings captured off an earlier window has that window's inner size, and its outer position where one was reported. |
| `Backend.EventLoop.constructor` | src/backend.rs:87-111 | The loop starts with a fresh backend in the given run mode. Its fresh raw input has the window's scale, a screen size of the inner size divided by the scale, no pointer, the button up, no scroll and no events. The swap chain has the window's inner size, and the modifier register is empty. |
| `Backend.EventLoop.OnRedrawEventsCleared` | src/backend.rs:113-181 | One frame-time sample is always recorded first. If no frame is acquired: Wait, no redraw, no output handling, even with quit set or in Continuous mode. Otherwise the control flow and redraw are `Schedule`'s, and the actions are `HandleOutput`'s. |
| `Backend.EventLoop.OnWindowEvent` | src/backend.rs:182-196 | A redraw is always requested. Resized sets the swap-chain size to the new size. The raw input, control flow and modifiers are `Translate`'s, starting from Wait. Control flow is Exit iff the event asks to exit, and Wait otherwise. |
| `Backend.EventLoop.OnLoopDestroyed` | src/backend.rs:197-206 | Stores the serialised window settings under "window" and the memory snapshot under "egui", then saves. The store ends clean, and the file is written iff something was dirty. |
| `Backend.EventLoop.OnOtherEvent` | src/backend.rs:207 | Any other loop event leaves the control flow at Wait and requests no redraw. |

## Left out

- `src/painter.rs`, all of it: pipeline construction, and per-job buffer creation through wgpu's `create_buffer_init`. No draw is issued. Texture caching and scissor clamping exist there only as commented-out code.
- The render call. It is an opaque step inside `OnRedrawEventsCleared`: it changes nothing the model sees.
- `cpu_time` and `fps`. Both are floating-point averages computed by egui's `MovementTracker`, which is not part of this model. `fps` divides by zero when there are no samples (src/backend.rs:40).
- Eviction from the frame-time log (capacity 1000, age 1 second), which `MovementTracker` also does. The log is modelled as append-only.
- Start-up plumbing: GPU instance, adapter, device and swap-chain creation, `event_loop.run` itself, `queue.submit`.
- Platform and library I/O, modelled as parameters or actions:
  - The clipboard is modelled by the outcome of `init_clipboard` and of each read. `set_contents`, `webbrowser::open` and `set_cursor_icon` become `PlatformAction`s, and their failures are only logged.
  - `local_time_of_day`, and the writes of `raw_input.time` and `seconds_since_midnight`. The frame's time is a parameter.
- egui's internals: `begin_frame`/`end_frame`, `RawInput::take` (the per-frame drain of the accumulator), `App::ui`, `App::on_exit` and the memory snapshot.
  - The application's calls to `set_run_mode` and `quit` during `App::ui` are the backend's own methods, called before `OnRedrawEventsCleared` reads the state.
  - Writes that `on_exit` makes to the store are not modelled.
- JSON and file I/O: `read_json`'s file access, `write_memory`, `read_memory`, `from_json_file`, the file write in `save` (modelled as the returned map) and its panic when creating or writing the file fails (src/storage.rs:20), and serde serialisation. The window-settings serialiser is a parameter, and `get_value`'s decoding is not modelled.
- Floating-point precision: casts between i32/u32, f32 and f64 are exact in the model. A window coordinate beyond 2^24 would lose precision in the source.
- `Winit.RoundToPixels`: does not model u32 saturation above 2^32-1, because window sizes never reach it.
- `examples/demo.rs`, which only wires the pieces together.
