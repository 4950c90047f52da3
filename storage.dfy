/**
 * src/storage.rs: the dirty-tracking key-value store that backs egui's
 * persistence (FileStorage), and the persisted window geometry
 * (WindowSettings) applied to a window builder and a window.
 */
module Storage {
  import opened Wrappers
  import Winit
  import Egui

  // --------------------------------------------------------------------------
  // The storage file

  /** The storage file as loading sees it: absent, not valid JSON, or a JSON string map. */
  datatype FileContents = Missing | Unparsable | Json(kv: map<string, string>)

  /** read_json: the parsed map, or None when the file is missing or does not parse. */
  function ReadJson(file: FileContents): (r: Option<map<string, string>>)
    ensures r.Some? <==> file.Json?
    ensures r.Some? ==> r.value == file.kv
  {
    match file
    case Json(kv) => Some(kv)
    case _ => None
  }

  /** The map FileStorage::from_path starts from: the file's map, or the empty map. */
  function Load(file: FileContents): (kv: map<string, string>)
    ensures file.Json? ==> kv == file.kv
    ensures !file.Json? ==> kv == map[]
  {
    ReadJson(file).GetOr(map[])
  }

  // --------------------------------------------------------------------------
  // The store as a value

  /** The state of a FileStorage: its map and whether it differs from what was last loaded or saved. */
  datatype Store = Store(kv: map<string, string>, dirty: bool) {

    /** get_string. */
    function Get(key: string): (r: Option<string>)
      ensures r.Some? <==> key in kv
      ensures r.Some? ==> r.value == kv[key]
    {
      if key in kv then Some(kv[key]) else None
    }

    /**
     * set_string: writing the value a key already has changes nothing;
     * otherwise the key gets the value, the store becomes dirty, and every
     * other key keeps its value.
     */
    function Set(key: string, value: string): (s: Store)
      ensures key in kv && kv[key] == value ==> s == this
      ensures !(key in kv && kv[key] == value) ==> s.kv == kv[key := value] && s.dirty
      ensures forall other :: other != key ==> s.Get(other) == Get(other)
    {
      if Get(key) != Some(value) then Store(kv[key := value], true) else this
    }

    /**
     * save: the map is written out only when dirty, and the store is
     * clean afterwards with the same map. The second component is what is
     * written to the file, if anything.
     */
    function Save(): (r: (Store, Option<map<string, string>>))
      ensures r.0.kv == kv && !r.0.dirty
      ensures r.1.Some? <==> dirty
      ensures r.1.Some? ==> r.1.value == kv
    {
      (Store(kv, false), if dirty then Some(kv) else None)
    }
  }

  /** FileStorage::from_path: the loaded map, clean. */
  function Initial(file: FileContents): (s: Store)
    ensures !s.dirty
    ensures file.Json? ==> s.kv == file.kv
    ensures !file.Json? ==> s.kv == map[]
  {
    Store(Load(file), false)
  }

  /** Reading a key right after writing it gives the written value. */
  lemma GetAfterSet(s: Store, key: string, value: string)
    ensures s.Set(key, value).Get(key) == Some(value)
  {
  }

  /** A second save writes nothing and changes nothing. */
  lemma SaveIsIdempotent(s: Store)
    ensures s.Save().0.Save() == (s.Save().0, None)
  {
  }

  // --------------------------------------------------------------------------
  // Dirty tracking is sound: a clean store matches its file

  /** A clean store holds exactly what loading `file` would give. */
  predicate InSync(s: Store, file: FileContents) {
    !s.dirty ==> Load(file) == s.kv
  }

  /** The operations a FileStorage's owner calls. */
  datatype StoreCall = SetString(key: string, value: string) | SaveCall

  /** One call, with its effect on the file: a save that writes replaces the file by the map. */
  function Step(s: Store, file: FileContents, call: StoreCall): (Store, FileContents) {
    match call
    case SetString(key, value) => (s.Set(key, value), file)
    case SaveCall =>
      var (s', written) := s.Save();
      (s', if written.Some? then Json(written.value) else file)
  }

  function Run(s: Store, file: FileContents, calls: seq<StoreCall>): (Store, FileContents)
    decreases |calls|
  {
    if calls == [] then (s, file)
    else
      var (s', file') := Step(s, file, calls[0]);
      Run(s', file', calls[1..])
  }

  /** from_path starts in sync with the file it read. */
  lemma InitialIsInSync(file: FileContents)
    ensures InSync(Initial(file), file)
  {
  }

  /** After a save the file reloads to exactly the store's map, dirty or not before. */
  lemma SaveSynchronises(s: Store, file: FileContents)
    requires InSync(s, file)
    ensures var (s', file') := Step(s, file, SaveCall); !s'.dirty && Load(file') == s'.kv
  {
  }

  /** Over any sequence of calls, whenever the store is clean the file holds its map. */
  lemma {:induction false} RunKeepsInSync(s: Store, file: FileContents, calls: seq<StoreCall>)
    requires InSync(s, file)
    ensures var (s', file') := Run(s, file, calls); InSync(s', file')
    decreases |calls|
  {
    if calls != [] {
      var (s1, file1) := Step(s, file, calls[0]);
      assert InSync(s1, file1) by {
        if calls[0].SaveCall? {
          SaveSynchronises(s, file);
        }
      }
      RunKeepsInSync(s1, file1, calls[1..]);
    }
  }

  // --------------------------------------------------------------------------
  // FileStorage: the store as an object

  /** A key-value store backed by a JSON file. */
  class FileStorage {
    const path: string
    var kv: map<string, string>
    var dirty: bool

    function Value(): Store
      reads this
    {
      Store(kv, dirty)
    }

    /** from_path, with what the file at `path` holds as a parameter. */
    constructor FromPath(path: string, file: FileContents)
      ensures this.path == path
      ensures Value() == Initial(file)
    {
      this.path := path;
      kv := Load(file);
      dirty := false;
    }

    /** get_string: the store's lookup on the current map. */
    function GetString(key: string): (r: Option<string>)
      reads this
      ensures r.Some? <==> key in kv
      ensures r.Some? ==> r.value == kv[key]
    {
      Value().Get(key)
    }

    /** set_string: stores `value` under `key`, marking the store dirty only on a change. */
    method SetString(key: string, value: string)
      modifies this
      ensures Value() == old(Value()).Set(key, value)
      ensures kv == old(kv)[key := value]
      ensures dirty == (old(dirty) || !(key in old(kv) && old(kv)[key] == value))
    {
      if GetString(key) != Some(value) {
        kv := kv[key := value];
        dirty := true;
      }
    }

    /** save: returns the map written to the file, written only when dirty; the store is clean afterwards. */
    method Save() returns (written: Option<map<string, string>>)
      modifies this
      ensures (Value(), written) == old(Value()).Save()
      ensures kv == old(kv) && !dirty
    {
      written := None;
      if dirty {
        written := Some(kv);
        dirty := false;
      }
    }
  }

  // --------------------------------------------------------------------------
  // WindowSettings

  /** Persisted window geometry: outer position and inner size, in physical pixels. */
  datatype WindowSettings = WindowSettings(pos: Option<Egui.Pos2>, size: Option<Egui.Vec2>) {

    /** from_display: the window's inner size always, its outer position when the platform reports it. */
    static function FromDisplay(w: Winit.Window): (s: WindowSettings)
      ensures s.size == Some(Egui.Vec2(w.innerSize.width as real, w.innerSize.height as real))
      ensures s.pos.None? <==> w.outerPosition.None?
      ensures s.pos.Some? ==>
        s.pos.value == Egui.Pos2(w.outerPosition.value.x as real, w.outerPosition.value.y as real)
    {
      var pos := match w.outerPosition
        case Some(p) => Some(Egui.Pos2(p.x as real, p.y as real))
        case None => None;
      WindowSettings(pos, Some(Egui.Vec2(w.innerSize.width as real, w.innerSize.height as real)))
    }

    /** initialize_size: requests the stored inner size on the builder, if there is one. */
    function InitializeSize(b: Winit.WindowBuilder): (b': Winit.WindowBuilder)
      ensures size.None? ==> b' == b
      ensures size.Some? ==> b' == b.(innerSize := Some(Winit.RequestedSize(size.value.x, size.value.y)))
    {
      match size
      case Some(s) => b.(innerSize := Some(Winit.RequestedSize(s.x, s.y)))
      case None => b
    }

    /** restore_positions: moves the built window to the stored outer position, if there is one. */
    function RestorePositions(w: Winit.Window): (w': Winit.Window)
      ensures pos.None? ==> w' == w
      ensures pos.Some? ==> w' == Winit.SetOuterPosition(w, pos.value.x, pos.value.y)
    {
      match pos
      case Some(p) => Winit.SetOuterPosition(w, p.x, p.y)
      case None => w
    }
  }

  /**
   * The geometry round trip: capture a window's settings, size a new
   * builder with them, build, and restore the position; the new window has
   * the old one's inner size, and its outer position where one was
   * reported (elsewhere the platform's placement).
   */
  lemma {:induction false} WindowSettingsRoundTrip(
    w: Winit.Window, b: Winit.WindowBuilder,
    defaultSize: Winit.PhysicalSize, placement: Option<Winit.PhysicalPosition>)
    ensures
      var s := WindowSettings.FromDisplay(w);
      var w' := s.RestorePositions(Winit.Build(s.InitializeSize(b), defaultSize, placement));
      && w'.innerSize == w.innerSize
      && (w.outerPosition.Some? ==> w'.outerPosition == w.outerPosition)
      && (w.outerPosition.None? ==> w'.outerPosition == placement)
  {
    Winit.RoundInteger(w.innerSize.width);
    Winit.RoundInteger(w.innerSize.height);
    if w.outerPosition.Some? {
      Winit.RoundInteger(w.outerPosition.value.x);
      Winit.RoundInteger(w.outerPosition.value.y);
    }
  }
}
