/**
 * `saveSettings`: the whole settings document is written over the file in
 * the given directory, created first, or else over the file at the path
 * fixed when the program loaded. Every error is logged and swallowed.
 */
module SettingsStore {
  import opened Wrappers
  import opened JsonValue
  import opened FileSystem
  import opened ICloudSync
  import opened SettingsConstants

  /** The world after the call, and whether the document reached the disk. */
  datatype SaveOutcome = SaveOutcome(world: World, saved: bool)

  /** An argument JavaScript treats as a directory: present and non-empty. */
  predicate HasDirectory(directory: Option<string>) {
    directory.Some? && directory.value != ""
  }

  /** The file written: `directory/settings.json` for a truthy argument, else the load-time `settingsFilePath`. */
  function TargetPath(c: Constants, directory: Option<string>): string {
    if HasDirectory(directory) then PathJoin(directory.value, SettingsFileName) else c.SettingsFilePath()
  }

  function SaveSettings(c: Constants, w: World, doc: Json, directory: Option<string>): (r: SaveOutcome)
    ensures SameHost(w, r.world) && r.world.answers == w.answers
    ensures r.saved <==> (HasDirectory(directory) ==> CanMakeDirs(w, directory.value))
                         && (!HasDirectory(directory) ==> c.settingsDir in w.dirs)
                         && TargetPath(c, directory) !in w.dirs
    ensures r.world.files == if r.saved then w.files[TargetPath(c, directory) := Document(doc)] else w.files
    ensures !HasDirectory(directory) ==> r.world.dirs == w.dirs
    ensures HasDirectory(directory) ==>
              r.world.dirs == if CanMakeDirs(w, directory.value)
                              then w.dirs + {directory.value} + Ancestors(directory.value)
                              else w.dirs
    ensures WellFormed(w) ==> WellFormed(r.world)
  {
    if HasDirectory(directory) then
      var d := directory.value;
      match MakeDirs(w, d)
      case Failure(_) => SaveOutcome(w, false)
      case Success(w1) =>
        match WriteFile(w1, d, SettingsFileName, Document(doc))
        case Failure(_) => SaveOutcome(w1, false)
        case Success(w2) => SaveOutcome(w2, true)
    else
      assert c.SettingsFilePath() == PathJoin(c.settingsDir, SettingsFileName);
      match WriteFile(w, c.settingsDir, SettingsFileName, Document(doc))
      case Failure(_) => SaveOutcome(w, false)
      case Success(w1) => SaveOutcome(w1, true)
  }

  /** A saved document reads back as written, from the path the compatibility helper names. */
  lemma SaveThenRead(c: Constants, w: World, doc: Json, directory: Option<string>)
    requires SaveSettings(c, w, doc, directory).saved
    ensures HasDirectory(directory) ==>
              ReadFile(SaveSettings(c, w, doc, directory).world, GetSettingsFilePathCompat(w, directory))
              == Success(Document(doc))
    ensures ReadFile(SaveSettings(c, w, doc, directory).world, TargetPath(c, directory)) == Success(Document(doc))
  {
  }

  /** Without a directory the target is the load-time path, even after the active directory has moved. */
  lemma SaveUsesLoadTimePath(w0: World, w: World, doc: Json)
    ensures TargetPath(LoadConstants(w0), None) == GetSettingsFilePath(w0, None)
    ensures GetActiveSettingsDir(w0) != GetActiveSettingsDir(w) ==>
              TargetPath(LoadConstants(w0), None) != GetSettingsFilePath(w, None)
  {
    PathJoinInjective(GetActiveSettingsDir(w0), GetActiveSettingsDir(w), SettingsFileName);
  }
}
