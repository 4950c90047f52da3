/**
 * src/backend.rs: the backend state the hosted application controls
 * (WGpuBackend), the per-tick scheduling decision, window start-up from
 * the stored geometry, and the event-loop callback that ties input,
 * scheduling and persistence together.
 */
module Backend {
  import opened Wrappers
  import Winit
  import Egui
  import Input
  import Storage

  /** Storage key of egui's memory snapshot. */
  const EguiMemoryKey: string := "egui"

  /** Storage key of the window geometry. */
  const WindowKey: string := "window"

  /** One frame-time measurement: when the frame started (seconds) and how long its UI pass took. */
  datatype FrameSample = FrameSample(time: real, duration: real)

  // --------------------------------------------------------------------------
  // The backend as a value, and the calls that change it

  datatype BackendState = BackendState(runMode: Egui.RunMode, quit: bool, frameTimes: seq<FrameSample>)

  /** Everything that changes a WGpuBackend: the application's two calls, and the loop's frame-time record. */
  datatype BackendCall =
    | SetRunMode(mode: Egui.RunMode)
    | Quit
    | AddFrameTime(sample: FrameSample)

  function Apply(s: BackendState, call: BackendCall): BackendState {
    match call
    case SetRunMode(m) => s.(runMode := m)
    case Quit => s.(quit := true)
    case AddFrameTime(sample) => s.(frameTimes := s.frameTimes + [sample])
  }

  function ApplyAll(s: BackendState, calls: seq<BackendCall>): BackendState
    decreases |calls|
  {
    if calls == [] then s else ApplyAll(Apply(s, calls[0]), calls[1..])
  }

  /** set_run_mode then run_mode gives the mode set; set_run_mode leaves quit and the samples alone. */
  lemma SetRunModeThenGet(s: BackendState, m: Egui.RunMode)
    ensures Apply(s, SetRunMode(m)).runMode == m
    ensures Apply(s, SetRunMode(m)).quit == s.quit
    ensures Apply(s, SetRunMode(m)).frameTimes == s.frameTimes
  {
  }

  /** Quit is sticky: after any calls, quit is set exactly when it was set before or Quit was called. */
  lemma {:induction false} QuitOnlyByQuit(s: BackendState, calls: seq<BackendCall>)
    ensures ApplyAll(s, calls).quit <==> s.quit || Quit in calls
    decreases |calls|
  {
    if calls != [] {
      assert calls == [calls[0]] + calls[1..];
      QuitOnlyByQuit(Apply(s, calls[0]), calls[1..]);
    }
  }

  /** Calling one more extends a run of calls by one step. */
  lemma {:induction false} ApplyAllSnoc(s: BackendState, calls: seq<BackendCall>, last: BackendCall)
    ensures ApplyAll(s, calls + [last]) == Apply(ApplyAll(s, calls), last)
    decreases |calls|
  {
    if calls != [] {
      assert (calls + [last])[1..] == calls[1..] + [last];
      ApplyAllSnoc(Apply(s, calls[0]), calls[1..], last);
    }
  }

  /** The mode of the most recent SetRunMode in `calls`, or `initial` when there is none. */
  function LatestRunMode(calls: seq<BackendCall>, initial: Egui.RunMode): Egui.RunMode {
    if calls == [] then initial
    else if calls[|calls| - 1].SetRunMode? then calls[|calls| - 1].mode
    else LatestRunMode(calls[..|calls| - 1], initial)
  }

  /** The run mode is always the one most recently set. */
  lemma {:induction false} RunModeIsLatestSet(s: BackendState, calls: seq<BackendCall>)
    ensures ApplyAll(s, calls).runMode == LatestRunMode(calls, s.runMode)
    decreases |calls|
  {
    if calls != [] {
      var init := calls[..|calls| - 1];
      assert init + [calls[|calls| - 1]] == calls;
      ApplyAllSnoc(s, init, calls[|calls| - 1]);
      RunModeIsLatestSet(s, init);
    }
  }

  /** The samples of the AddFrameTime calls in `calls`, in order. */
  function Samples(calls: seq<BackendCall>): seq<FrameSample>
    decreases |calls|
  {
    if calls == [] then []
    else (if calls[0].AddFrameTime? then [calls[0].sample] else []) + Samples(calls[1..])
  }

  /** The sample log only grows, by one sample per recorded frame and by nothing else. */
  lemma {:induction false} FrameTimesOnlyGrow(s: BackendState, calls: seq<BackendCall>)
    ensures ApplyAll(s, calls).frameTimes == s.frameTimes + Samples(calls)
    ensures s.frameTimes <= ApplyAll(s, calls).frameTimes
    ensures |ApplyAll(s, calls).frameTimes| <= |s.frameTimes| + |calls|
    decreases |calls|
  {
    if calls != [] {
      FrameTimesOnlyGrow(Apply(s, calls[0]), calls[1..]);
    }
  }

  // --------------------------------------------------------------------------
  // WGpuBackend

  /** The control surface the hosted application has over the loop. */
  class WGpuBackend {
    var frameTimes: seq<FrameSample>
    var quit: bool
    var runMode: Egui.RunMode

    function State(): BackendState
      reads this
    {
      BackendState(runMode, quit, frameTimes)
    }

    /** new: the given mode, not quitting, no samples. */
    constructor (runMode: Egui.RunMode)
      ensures State() == BackendState(runMode, false, [])
    {
      frameTimes := [];
      quit := false;
      this.runMode := runMode;
    }

    /** run_mode. */
    method CurrentRunMode() returns (m: Egui.RunMode)
      ensures m == runMode
    {
      m := runMode;
    }

    /** set_run_mode. */
    method SetRunMode(m: Egui.RunMode)
      modifies this
      ensures State() == Apply(old(State()), BackendCall.SetRunMode(m))
      ensures runMode == m && quit == old(quit) && frameTimes == old(frameTimes)
    {
      runMode := m;
    }

    /** quit: asks the loop to exit after the next rendered frame. */
    method Quit()
      modifies this
      ensures State() == Apply(old(State()), BackendCall.Quit)
      ensures quit && runMode == old(runMode) && frameTimes == old(frameTimes)
    {
      quit := true;
    }
  }

  // --------------------------------------------------------------------------
  // The scheduling decision after a rendered frame

  /** The next wake policy and whether a redraw is requested. */
  datatype Decision = Decision(controlFlow: Winit.ControlFlow, redraw: bool)

  /**
   * After a rendered frame: exit when quit was asked for, whatever the
   * mode; otherwise poll and redraw in Continuous mode; otherwise wait, and
   * redraw only when the UI needs a repaint.
   */
  function Schedule(quit: bool, runMode: Egui.RunMode, needsRepaint: bool): (d: Decision)
    ensures d.controlFlow == Winit.Exit <==> quit
    ensures d.controlFlow == Winit.Poll <==> !quit && runMode == Egui.Continuous
    ensures d.controlFlow == Winit.Wait <==> !quit && runMode.Reactive?
    ensures d.redraw <==> !quit && (runMode == Egui.Continuous || needsRepaint)
  {
    if quit then Decision(Winit.Exit, false)
    else if runMode == Egui.Continuous then Decision(Winit.Poll, true)
    else Decision(Winit.Wait, needsRepaint)
  }

  /** Once the application has called quit, every later rendered frame exits, whatever it calls meanwhile. */
  lemma QuitLeadsToExit(s: BackendState, calls: seq<BackendCall>, needsRepaint: bool)
    requires s.quit
    ensures var s' := ApplyAll(s, calls);
      Schedule(s'.quit, s'.runMode, needsRepaint) == Decision(Winit.Exit, false)
  {
    QuitOnlyByQuit(s, calls);
  }

  // --------------------------------------------------------------------------
  // Start-up: the window, sized and placed from stored settings

  /** The builder `run` starts from. */
  function MainWindowBuilder(title: string): Winit.WindowBuilder {
    Winit.WindowBuilder(title, true, true, false, None)
  }

  /**
   * Opens the main window: stored settings, if any, size the builder
   * before the window is built and place the window after. The platform
   * picks `defaultSize` and `placement` where nothing is requested.
   */
  function OpenWindow(
    settings: Option<Storage.WindowSettings>, title: string,
    defaultSize: Winit.PhysicalSize, placement: Option<Winit.PhysicalPosition>): (w: Winit.Window)
    ensures settings.None? ==> w == Winit.Window(defaultSize, placement)
    ensures settings.Some? ==>
      w == settings.value.RestorePositions(
             Winit.Build(settings.value.InitializeSize(MainWindowBuilder(title)), defaultSize, placement))
  {
    match settings
    case None => Winit.Build(MainWindowBuilder(title), defaultSize, placement)
    case Some(s) => s.RestorePositions(Winit.Build(s.InitializeSize(MainWindowBuilder(title)), defaultSize, placement))
  }

  /**
   * A window opened from the settings captured off an earlier window has
   * that window's inner size and, where the platform reported one, its
   * outer position.
   */
  lemma ReopenRestoresGeometry(
    earlier: Winit.Window, title: string,
    defaultSize: Winit.PhysicalSize, placement: Option<Winit.PhysicalPosition>)
    ensures var w := OpenWindow(Some(Storage.WindowSettings.FromDisplay(earlier)), title, defaultSize, placement);
      && w.innerSize == earlier.innerSize
      && (earlier.outerPosition.Some? ==> w.outerPosition == earlier.outerPosition)
  {
    Storage.WindowSettingsRoundTrip(earlier, MainWindowBuilder(title), defaultSize, placement);
  }

  // --------------------------------------------------------------------------
  // The event-loop callback

  /** The state the event-loop callback owns, with one method per kind of loop event. */
  class EventLoop {
    const backend: WGpuBackend
    const rawInput: Input.RawInput
    const storage: Storage.FileStorage
    /** Whether a clipboard could be opened at start-up. */
    const hasClipboard: bool
    /** The swap chain's size (its descriptor's width and height). */
    var swapChainSize: Winit.PhysicalSize
    var modifierState: Winit.ModifiersState

    ghost predicate Valid()
      reads this, rawInput
    {
      Input.ScaleKnown(rawInput.Value())
    }

    /**
     * The state `run` sets up before entering the loop, for a window of
     * the given inner size and scale factor.
     */
    constructor (
      runMode: Egui.RunMode, storage: Storage.FileStorage, window: Winit.Window,
      scaleFactor: real, hasClipboard: bool)
      requires scaleFactor > 0.0
      ensures Valid()
      ensures fresh(backend) && fresh(rawInput) && this.storage == storage
      ensures backend.State() == BackendState(runMode, false, [])
      ensures rawInput.pixelsPerPoint == Some(scaleFactor)
      ensures rawInput.screenSize.x * scaleFactor == window.innerSize.width as real
      ensures rawInput.screenSize.y * scaleFactor == window.innerSize.height as real
      ensures rawInput.mousePos == None && !rawInput.mouseDown
      ensures rawInput.scrollDelta == Egui.Vec2(0.0, 0.0) && rawInput.events == []
      ensures swapChainSize == window.innerSize
      ensures modifierState == Winit.NoModifiers && this.hasClipboard == hasClipboard
    {
      backend := new WGpuBackend(runMode);
      rawInput := new Input.RawInput(window.innerSize, scaleFactor);
      this.storage := storage;
      this.hasClipboard := hasClipboard;
      swapChainSize := window.innerSize;
      modifierState := Winit.NoModifiers;
    }

    /**
     * RedrawEventsCleared: the UI pass has produced `output` and taken
     * `frameTime` seconds from `time`; its sample is recorded first. When
     * no frame could be acquired the tick ends there, with the Wait set
     * on entry, no redraw and no output handling. Otherwise the frame is
     * rendered, the next wake policy is Schedule's, and the output's
     * platform actions are attempted.
     */
    method OnRedrawEventsCleared(time: real, frameTime: real, output: Egui.Output, frameAcquired: bool)
      returns (controlFlow: Winit.ControlFlow, redraw: bool, actions: seq<Input.PlatformAction>)
      modifies backend
      ensures backend.State() == Apply(old(backend.State()), AddFrameTime(FrameSample(time, frameTime)))
      ensures !frameAcquired ==> controlFlow == Winit.Wait && !redraw && actions == []
      ensures frameAcquired ==>
        && Decision(controlFlow, redraw) == Schedule(backend.quit, backend.runMode, output.needsRepaint)
        && actions == Input.HandleOutput(output, hasClipboard)
    {
      controlFlow, redraw, actions := Winit.Wait, false, [];
      backend.frameTimes := backend.frameTimes + [FrameSample(time, frameTime)];
      if !frameAcquired {
        // the frame is dropped and logged
        return;
      }
      // the paint jobs are rendered and submitted here
      var d := Schedule(backend.quit, backend.runMode, output.needsRepaint);
      controlFlow, redraw := d.controlFlow, d.redraw;
      actions := Input.HandleOutput(output, hasClipboard);
    }

    /**
     * A window event: Resized first resizes the swap chain; then the event
     * is translated into the raw input (a paste reads `pasteRead` when a
     * clipboard exists), and a redraw is always requested. The control
     * flow is the Wait set on entry unless the event asks to exit.
     */
    method OnWindowEvent(event: Winit.WindowEvent, pasteRead: Result<string, string>)
      returns (controlFlow: Winit.ControlFlow, redraw: bool)
      requires Valid() && Winit.WellFormed(event)
      modifies this, rawInput
      ensures Valid() && redraw
      ensures swapChainSize == if event.Resized? then event.size else old(swapChainSize)
      ensures var clipboard := if hasClipboard then Some(pasteRead) else None;
        Input.Translation(rawInput.Value(), controlFlow, modifierState)
          == Input.Translate(event, clipboard, old(rawInput.Value()), Winit.Wait, old(modifierState))
      ensures controlFlow == Winit.Exit <==> Input.ExitRequested(event, old(modifierState))
      ensures controlFlow != Winit.Exit ==> controlFlow == Winit.Wait
    {
      controlFlow := Winit.Wait;
      if event.Resized? {
        // the swap chain is recreated from the resized descriptor
        swapChainSize := event.size;
      }
      var clipboard := if hasClipboard then Some(pasteRead) else None;
      controlFlow, modifierState := Input.InputToEgui(event, clipboard, rawInput, controlFlow, modifierState);
      redraw := true;
    }

    /**
     * LoopDestroyed: the window geometry (serialised by `encode`) and
     * egui's memory snapshot are stored, then the store is saved. Returns
     * the map written to the file, if the store was dirty.
     */
    method OnLoopDestroyed(window: Winit.Window, encode: Storage.WindowSettings -> string, memory: string)
      returns (controlFlow: Winit.ControlFlow, written: Option<map<string, string>>)
      modifies storage
      ensures controlFlow == Winit.Wait
      ensures storage.kv == old(storage.kv)[WindowKey := encode(Storage.WindowSettings.FromDisplay(window))][EguiMemoryKey := memory]
      ensures !storage.dirty
      ensures written.Some? <==> old(storage.dirty) || storage.kv != old(storage.kv)
      ensures written.Some? ==> written.value == storage.kv
    {
      controlFlow := Winit.Wait;
      storage.SetString(WindowKey, encode(Storage.WindowSettings.FromDisplay(window)));
      storage.SetString(EguiMemoryKey, memory);
      written := storage.Save();
    }

    /** Any other loop event only resets the control flow to Wait. */
    method OnOtherEvent() returns (controlFlow: Winit.ControlFlow, redraw: bool)
      ensures controlFlow == Winit.Wait && !redraw
    {
      controlFlow, redraw := Winit.Wait, false;
    }
  }
}
