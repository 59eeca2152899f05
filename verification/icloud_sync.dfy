/**
 * The sync-location resolver: which of the two settings roots is active, and
 * the migrations between the local root `~/.ianai` and the iCloud Drive root
 * `<iCloud Drive>/ianai`.
 */
module ICloudSync {
  import opened Wrappers
  import opened Text
  import opened FileSystem

  const ICloudDrive := "Library/Mobile Documents/com~apple~CloudDocs"
  const SettingsFileName := "settings.json"

  function DefaultDir(home: string): string {
    PathJoin(home, ".ianai")
  }

  function ICloudDir(home: string): string {
    PathJoin(home, ICloudDrive)
  }

  function ICloudSettingsDir(home: string): string {
    PathJoin(home, ICloudDrive + "/ianai")
  }

  function LocalSettingsPath(home: string): string {
    PathJoin(DefaultDir(home), SettingsFileName)
  }

  function ICloudSettingsPath(home: string): string {
    PathJoin(ICloudSettingsDir(home), SettingsFileName)
  }

  /** The character right after `home/` in `home/rest`. */
  lemma CharAfterHome(home: string, rest: string)
    requires |rest| > 0
    ensures |PathJoin(home, rest)| > |home| + 1
    ensures PathJoin(home, rest)[|home| + 1] == rest[0]
  {
    assert PathJoin(home, rest) == home + ("/" + rest);
  }

  /** Two paths that differ right after `home/` are neither equal nor prefix-related. */
  lemma Diverge(home: string, p: string, q: string)
    requires |p| > |home| + 1 && |q| > |home| + 1
    requires p[|home| + 1] != q[|home| + 1]
    ensures p != q && p !in Ancestors(q) && q !in Ancestors(p)
  {
  }

  /** The local and the iCloud paths never coincide. */
  lemma PathsDistinct(home: string)
    ensures DefaultDir(home) != ICloudSettingsDir(home)
    ensures DefaultDir(home) != ICloudDir(home)
    ensures ICloudDir(home) != ICloudSettingsDir(home)
    ensures LocalSettingsPath(home) != ICloudSettingsPath(home)
    ensures LocalSettingsPath(home) != DefaultDir(home)
    ensures ICloudSettingsPath(home) != DefaultDir(home)
    ensures ICloudSettingsPath(home) != ICloudSettingsDir(home)
    ensures ICloudDir(home) != LocalSettingsPath(home)
    ensures ICloudDir(home) != ICloudSettingsPath(home)
    ensures LocalSettingsPath(home) != ICloudSettingsDir(home)
  {
    var d := DefaultDir(home);
    var l := LocalSettingsPath(home);
    var cd := ICloudSettingsDir(home);
    var c := ICloudSettingsPath(home);
    var i := ICloudDir(home);
    assert l == PathJoin(home, ".ianai/" + SettingsFileName);
    assert c == PathJoin(home, ICloudDrive + "/ianai/" + SettingsFileName);
    CharAfterHome(home, ".ianai");
    CharAfterHome(home, ".ianai/" + SettingsFileName);
    CharAfterHome(home, ICloudDrive);
    CharAfterHome(home, ICloudDrive + "/ianai");
    CharAfterHome(home, ICloudDrive + "/ianai/" + SettingsFileName);
    assert (".ianai/" + SettingsFileName)[0] != (ICloudDrive + "/ianai")[0];
  }

  /** Creating the local folder never creates a settings path or the iCloud Drive folder. */
  lemma LocalMkdirFacts(home: string)
    ensures LocalSettingsPath(home) !in Ancestors(DefaultDir(home))
    ensures ICloudSettingsPath(home) !in Ancestors(DefaultDir(home))
    ensures ICloudDir(home) !in Ancestors(DefaultDir(home))
  {
    var d := DefaultDir(home);
    CharAfterHome(home, ".ianai");
    CharAfterHome(home, ICloudDrive);
    Diverge(home, ICloudDir(home), d);
  }

  /** Creating the iCloud settings folder never creates a settings path. */
  lemma ICloudMkdirFacts(home: string)
    ensures LocalSettingsPath(home) !in Ancestors(ICloudSettingsDir(home))
    ensures LocalSettingsPath(home) != ICloudSettingsDir(home)
    ensures ICloudSettingsPath(home) !in Ancestors(ICloudSettingsDir(home))
  {
    var l := LocalSettingsPath(home);
    var cd := ICloudSettingsDir(home);
    assert l == PathJoin(home, ".ianai/" + SettingsFileName);
    CharAfterHome(home, ".ianai/" + SettingsFileName);
    CharAfterHome(home, ICloudDrive + "/ianai");
    assert ICloudDrive[0] == 'L';
    assert (".ianai/" + SettingsFileName)[0] == '.';
    assert (ICloudDrive + "/ianai")[0] == 'L';
    Diverge(home, l, cd);
  }

  /** `isICloudSupported`: macOS, and the iCloud Drive folder is present. */
  predicate IsICloudSupported(w: World) {
    w.platform == "darwin" && Exists(w, ICloudDir(w.home))
  }

  /** `isICloudEnabled`: a settings file already sits in the iCloud settings folder. */
  predicate IsICloudEnabled(w: World) {
    Exists(w, ICloudSettingsPath(w.home))
  }

  /** `hasLocalSettings`: a settings file sits in `~/.ianai`. */
  predicate HasLocalSettings(w: World) {
    Exists(w, LocalSettingsPath(w.home))
  }

  /**
   * The three checks use `existsSync`: they look only at the platform and at
   * which paths exist, so a directory standing at a settings path counts, and
   * file contents and pending answers never matter.
   */
  lemma ChecksSeeOnlyExistence(w1: World, w2: World)
    requires w1.platform == w2.platform && w1.home == w2.home
    requires w1.files.Keys + w1.dirs == w2.files.Keys + w2.dirs
    ensures IsICloudSupported(w1) == IsICloudSupported(w2)
    ensures IsICloudEnabled(w1) == IsICloudEnabled(w2)
    ensures HasLocalSettings(w1) == HasLocalSettings(w2)
    ensures IsICloudEnabled(w1) <==> ICloudSettingsPath(w1.home) in w1.files.Keys + w1.dirs
  {
  }

  /** `getActiveSettingsDir`: the iCloud folder exactly when sync is supported and enabled, else the local one. */
  function GetActiveSettingsDir(w: World): (d: string)
    ensures d == ICloudSettingsDir(w.home) <==> IsICloudSupported(w) && IsICloudEnabled(w)
    ensures d == DefaultDir(w.home) <==> !(IsICloudSupported(w) && IsICloudEnabled(w))
  {
    PathsDistinct(w.home);
    if IsICloudSupported(w) && IsICloudEnabled(w) then ICloudSettingsDir(w.home) else DefaultDir(w.home)
  }

  /** Without the iCloud Drive folder the local directory is active, whatever else exists. */
  lemma NoICloudDriveMeansLocal(w: World)
    requires ICloudDir(w.home) !in w.dirs && ICloudDir(w.home) !in w.files
    ensures !IsICloudSupported(w)
    ensures GetActiveSettingsDir(w) == DefaultDir(w.home)
  {
  }

  /** Once sync is supported and enabled, iCloud wins even when a local settings file also exists. */
  lemma ICloudTakesPrecedence(w: World)
    requires IsICloudSupported(w) && IsICloudEnabled(w) && HasLocalSettings(w)
    ensures GetActiveSettingsDir(w) == ICloudSettingsDir(w.home)
    ensures GetActiveSettingsDir(w) != DefaultDir(w.home)
  {
  }

  /** `getSettingsFilePath(directory)`: `directory || getActiveSettingsDir()` joined with `settings.json`. */
  function GetSettingsFilePath(w: World, directory: Option<string>): (p: string)
    ensures directory.Some? && directory.value != "" ==> p == PathJoin(directory.value, SettingsFileName)
    ensures directory.None? || directory.value == "" ==> p == LocalSettingsPath(w.home) || p == ICloudSettingsPath(w.home)
  {
    var target := if directory.Some? && directory.value != "" then directory.value else GetActiveSettingsDir(w);
    PathJoin(target, SettingsFileName)
  }

  /** An empty directory argument counts as no argument, and both name the active directory's file. */
  lemma EmptyDirectoryMeansActive(w: World)
    ensures GetSettingsFilePath(w, Some("")) == GetSettingsFilePath(w, None)
    ensures GetSettingsFilePath(w, None) == ICloudSettingsPath(w.home)
            <==> IsICloudSupported(w) && IsICloudEnabled(w)
    ensures GetSettingsFilePath(w, None) == LocalSettingsPath(w.home)
            <==> !(IsICloudSupported(w) && IsICloudEnabled(w))
  {
    PathsDistinct(w.home);
    var a := GetActiveSettingsDir(w);
    var cd := ICloudSettingsDir(w.home);
    var d := DefaultDir(w.home);
    if PathJoin(a, SettingsFileName) == PathJoin(cd, SettingsFileName) {
      assert a == PathJoin(a, SettingsFileName)[..|a|];
      assert cd == PathJoin(cd, SettingsFileName)[..|cd|];
    }
    if PathJoin(a, SettingsFileName) == PathJoin(d, SettingsFileName) {
      assert a == PathJoin(a, SettingsFileName)[..|a|];
      assert d == PathJoin(d, SettingsFileName)[..|d|];
    }
  }

  /** A non-empty directory argument fixes the path, whatever the filesystem looks like. */
  lemma ExplicitDirectoryIgnoresWorld(w1: World, w2: World, directory: string)
    requires directory != ""
    ensures GetSettingsFilePath(w1, Some(directory)) == GetSettingsFilePath(w2, Some(directory))
    ensures GetSettingsFilePath(w1, Some(directory)) == PathJoin(directory, SettingsFileName)
  {
  }

  datatype ICloudStatus = ICloudStatus(
    supported: bool,
    enabled: bool,
    hasLocal: bool,
    iCloudPath: string,
    localPath: string,
    activePath: string)

  /** `getICloudStatus`: the three predicates, both roots, and the active one among them. */
  function GetICloudStatus(w: World): (s: ICloudStatus)
    ensures s.activePath == (if s.supported && s.enabled then s.iCloudPath else s.localPath)
    ensures s.iCloudPath != s.localPath
    ensures s.supported <==> IsICloudSupported(w)
    ensures s.enabled <==> IsICloudEnabled(w)
    ensures s.hasLocal <==> HasLocalSettings(w)
  {
    PathsDistinct(w.home);
    ICloudStatus(
      IsICloudSupported(w), IsICloudEnabled(w), HasLocalSettings(w),
      ICloudSettingsDir(w.home), DefaultDir(w.home), GetActiveSettingsDir(w))
  }

  /** The confirmation test: the answer, lower-cased and not trimmed, is exactly `y` or `yes`. */
  predicate IsAffirmative(answer: string) {
    ToLower(answer) == "y" || ToLower(answer) == "yes"
  }

  /** The affirmative answers are exactly the ten spellings of `y` and `yes`. */
  lemma AffirmativeAnswers(answer: string)
    ensures IsAffirmative(answer) <==>
      answer in {"y", "Y", "yes", "yeS", "yEs", "yES", "Yes", "YeS", "YEs", "YES"}
  {
    if IsAffirmative(answer) {
      var lo := ToLower(answer);
      assert forall i :: 0 <= i < |answer| ==> lo[i] == LowerChar(answer[i]);
      if |answer| == 1 {
        assert LowerChar(answer[0]) == 'y';
        assert answer == [answer[0]];
      } else {
        assert LowerChar(answer[0]) == 'y' && LowerChar(answer[1]) == 'e' && LowerChar(answer[2]) == 's';
        assert answer == [answer[0], answer[1], answer[2]];
      }
    }
  }

  /**
   * `migrateLocalToICloud`: copy the local settings file into the iCloud
   * folder, ask whether to delete the local copy, and on `y`/`yes` delete it
   * and try to remove `~/.ianai`, which stays when anything else is in it.
   */
  function MigrateLocalToICloud(w: World): (r: Run<()>)
    ensures SameHost(w, r.world)
    ensures r.Threw? <==>
      !(LocalSettingsPath(w.home) in w.files && ICloudSettingsDir(w.home) in w.dirs
        && ICloudSettingsPath(w.home) !in w.dirs)
    ensures r.Threw? ==> r.world == w
    ensures r.Waiting? <==> !r.Threw? && |w.answers| == 0
    ensures !r.Threw? ==> ICloudSettingsPath(w.home) in r.world.files
                          && r.world.files[ICloudSettingsPath(w.home)] == w.files[LocalSettingsPath(w.home)]
    ensures r.Waiting? ==> LocalSettingsPath(w.home) in r.world.files
    ensures r.Returned? ==> r.world.answers == w.answers[1..]
    ensures r.Returned? ==> (LocalSettingsPath(w.home) !in r.world.files <==> IsAffirmative(w.answers[0]))
    ensures r.world.files - {LocalSettingsPath(w.home), ICloudSettingsPath(w.home)}
            == w.files - {LocalSettingsPath(w.home), ICloudSettingsPath(w.home)}
    ensures !r.Threw? && (r.Waiting? || !IsAffirmative(w.answers[0]))
            ==> r.world.files == w.files[ICloudSettingsPath(w.home) := w.files[LocalSettingsPath(w.home)]]
    ensures r.Returned? && IsAffirmative(w.answers[0])
            ==> r.world.files == w.files[ICloudSettingsPath(w.home) := w.files[LocalSettingsPath(w.home)]]
                                 - {LocalSettingsPath(w.home)}
    ensures !(r.Returned? && IsAffirmative(w.answers[0])) ==> r.world.dirs == w.dirs
    ensures r.world.dirs <= w.dirs && w.dirs - r.world.dirs <= {DefaultDir(w.home)}
    ensures DefaultDir(w.home) in w.dirs - r.world.dirs ==> HasNoEntries(r.world, DefaultDir(w.home))
    ensures r.Returned? && IsAffirmative(w.answers[0]) && HasNoEntries(r.world, DefaultDir(w.home))
            ==> DefaultDir(w.home) !in r.world.dirs
    ensures WellFormed(w) ==> WellFormed(r.world)
  {
    var home := w.home;
    PathsDistinct(home);
    match ReadFile(w, LocalSettingsPath(home))
    case Failure(_) => Threw(w)
    case Success(content) =>
      match WriteFile(w, ICloudSettingsDir(home), SettingsFileName, content)
      case Failure(_) => Threw(w)
      case Success(w1) =>
        match Ask(w1)
        case None => Waiting(w1)
        case Some((answer, w2)) =>
          if !IsAffirmative(answer) then Returned((), w2)
          else
            var w3 := w2.(files := w2.files - {LocalSettingsPath(home)});
            Returned((), RemoveDirIfEmpty(w3, DefaultDir(home)).0)
  }

  /**
   * `migrateICloudToLocal`: make sure `~/.ianai` exists, copy the iCloud
   * settings file there, delete the iCloud copy and try to remove its folder.
   * It asks nothing.
   */
  function MigrateICloudToLocal(w: World): (r: Run<()>)
    ensures !r.Waiting?
    ensures SameHost(w, r.world) && r.world.answers == w.answers
    ensures r.Returned? <==>
      CanMakeDirs(w, DefaultDir(w.home)) && ICloudSettingsPath(w.home) in w.files
      && LocalSettingsPath(w.home) !in w.dirs
  {
    var home := w.home;
    PathsDistinct(home);
    LocalMkdirFacts(home);
    match MakeDirs(w, DefaultDir(home))
    case Failure(_) => Threw(w)
    case Success(w1) =>
      match ReadFile(w1, ICloudSettingsPath(home))
      case Failure(_) => Threw(w1)
      case Success(content) =>
        match WriteFile(w1, DefaultDir(home), SettingsFileName, content)
        case Failure(_) => Threw(w1)
        case Success(w2) =>
          var w3 := w2.(files := w2.files - {ICloudSettingsPath(home)});
          Returned((), RemoveDirIfEmpty(w3, ICloudSettingsDir(home)).0)
  }

  /**
   * After `migrateICloudToLocal` the local file holds what the iCloud file
   * held and the iCloud file is gone.
   */
  lemma MigrateICloudToLocalMoves(w: World)
    ensures var r := MigrateICloudToLocal(w);
            r.Returned? ==> LocalSettingsPath(w.home) in r.world.files
                            && r.world.files[LocalSettingsPath(w.home)] == w.files[ICloudSettingsPath(w.home)]
                            && ICloudSettingsPath(w.home) !in r.world.files
                            && DefaultDir(w.home) in r.world.dirs
  {
    var home := w.home;
    PathsDistinct(home);
    var local, cloud := LocalSettingsPath(home), ICloudSettingsPath(home);
    var made := MakeDirs(w, DefaultDir(home));
    if made.Success? {
      var w1 := made.value;
      if cloud in w1.files {
        var written := WriteFile(w1, DefaultDir(home), SettingsFileName, w1.files[cloud]);
        if written.Success? {
          var w2 := written.value;
          var w3 := w2.(files := w2.files - {cloud});
          assert w3.files[local] == w.files[cloud];
          var w4 := RemoveDirIfEmpty(w3, ICloudSettingsDir(home)).0;
          assert w4.files == w3.files;
          assert MigrateICloudToLocal(w) == Returned((), w4);
        }
      }
    }
  }

  /** `migrateICloudToLocal` changes no file other than the two settings files. */
  lemma MigrateICloudToLocalFrame(w: World)
    ensures var r := MigrateICloudToLocal(w);
            r.world.files - {LocalSettingsPath(w.home), ICloudSettingsPath(w.home)}
            == w.files - {LocalSettingsPath(w.home), ICloudSettingsPath(w.home)}
  {
    var home := w.home;
    var local, cloud := LocalSettingsPath(home), ICloudSettingsPath(home);
    var made := MakeDirs(w, DefaultDir(home));
    if made.Success? {
      var w1 := made.value;
      if cloud in w1.files {
        var written := WriteFile(w1, DefaultDir(home), SettingsFileName, w1.files[cloud]);
        if written.Success? {
          var w2 := written.value;
          var w3 := w2.(files := w2.files - {cloud});
          assert w3.files - {local, cloud} == w.files - {local, cloud};
        }
      }
    }
  }

  /**
   * The directories `migrateICloudToLocal` touches: it may create `~/.ianai`
   * and its ancestors, and it removes the iCloud settings folder, once the move
   * completes, exactly when nothing is left in it.
   */
  lemma MigrateICloudToLocalDirs(w: World)
    ensures MigrateICloudToLocal(w).world.dirs <= w.dirs + {DefaultDir(w.home)} + Ancestors(DefaultDir(w.home))
    ensures w.dirs - MigrateICloudToLocal(w).world.dirs <= {ICloudSettingsDir(w.home)}
    ensures ICloudSettingsDir(w.home) in w.dirs - MigrateICloudToLocal(w).world.dirs
            ==> HasNoEntries(MigrateICloudToLocal(w).world, ICloudSettingsDir(w.home))
    ensures MigrateICloudToLocal(w).Returned? && HasNoEntries(MigrateICloudToLocal(w).world, ICloudSettingsDir(w.home))
            ==> ICloudSettingsDir(w.home) !in MigrateICloudToLocal(w).world.dirs
    ensures WellFormed(w) ==> WellFormed(MigrateICloudToLocal(w).world)
  {
    var home := w.home;
    var cloud := ICloudSettingsPath(home);
    var made := MakeDirs(w, DefaultDir(home));
    if made.Success? {
      var w1 := made.value;
      if cloud in w1.files {
        var written := WriteFile(w1, DefaultDir(home), SettingsFileName, w1.files[cloud]);
        if written.Success? {
          var w2 := written.value;
          var w3 := w2.(files := w2.files - {cloud});
          assert w3.dirs == w1.dirs;
          assert WellFormed(w) ==> WellFormed(w3);
        }
      }
    }
  }

  /**
   * Making the iCloud settings folder leaves every file, and the presence of
   * the local settings, as it was, and no directory stands where the iCloud
   * settings file goes unless one already did.
   */
  lemma ICloudFolderMade(w: World, w1: World)
    requires w1 == w.(dirs := w.dirs + {ICloudSettingsDir(w.home)} + Ancestors(ICloudSettingsDir(w.home)))
    ensures w1.files == w.files && w1.answers == w.answers && w1.home == w.home
    ensures ICloudSettingsDir(w.home) in w1.dirs
    ensures HasLocalSettings(w1) == HasLocalSettings(w)
    ensures (ICloudSettingsPath(w.home) in w1.dirs) == (ICloudSettingsPath(w.home) in w.dirs)
  {
    ICloudMkdirFacts(w.home);
    PathsDistinct(w.home);
  }

  /**
   * `enableICloudSync`: false when unsupported, true when already enabled;
   * otherwise it creates the iCloud folder, migrates an existing local file,
   * and reports true. Every exception becomes false.
   */
  function EnableICloudSync(w: World): (r: Run<bool>)
    ensures !r.Threw?
    ensures SameHost(w, r.world)
    ensures !IsICloudSupported(w) ==> r == Returned(false, w)
    ensures IsICloudSupported(w) && IsICloudEnabled(w) ==> r == Returned(true, w)
    ensures IsICloudSupported(w) && !IsICloudEnabled(w) && !CanMakeDirs(w, ICloudSettingsDir(w.home))
            ==> r == Returned(false, w)
    ensures IsICloudSupported(w) && !IsICloudEnabled(w) && CanMakeDirs(w, ICloudSettingsDir(w.home))
            ==> (r.Returned? && !r.value <==> HasLocalSettings(w) && LocalSettingsPath(w.home) !in w.files)
    ensures IsICloudSupported(w) && !IsICloudEnabled(w) && CanMakeDirs(w, ICloudSettingsDir(w.home))
            && HasLocalSettings(w) && LocalSettingsPath(w.home) !in w.files
            ==> r == Returned(false, MakeDirs(w, ICloudSettingsDir(w.home)).value)
  {
    if !IsICloudSupported(w) then Returned(false, w)
    else if IsICloudEnabled(w) then Returned(true, w)
    else match MakeDirs(w, ICloudSettingsDir(w.home))
      case Failure(_) => Returned(false, w)
      case Success(w1) =>
        ICloudFolderMade(w, w1);
        if !HasLocalSettings(w1) then Returned(true, w1)
        else match MigrateLocalToICloud(w1)
          case Threw(w2) => Returned(false, w2)
          case Waiting(w2) => Waiting(w2)
          case Returned(_, w2) => Returned(true, w2)
  }

  /**
   * Enabling with no local settings file only creates the iCloud folder: it
   * reports true, yet sync is still not enabled and the local root stays active.
   */
  lemma EnableWithoutLocalOnlyCreatesDir(w: World)
    requires IsICloudSupported(w) && !IsICloudEnabled(w) && !HasLocalSettings(w)
    requires CanMakeDirs(w, ICloudSettingsDir(w.home))
    ensures var r := EnableICloudSync(w);
            r.Returned? && r.value && r.world.files == w.files
            && ICloudSettingsDir(w.home) in r.world.dirs
            && !IsICloudEnabled(r.world)
            && GetActiveSettingsDir(r.world) == DefaultDir(w.home)
  {
    var home := w.home;
    PathsDistinct(home);
    ICloudMkdirFacts(home);
    var w1 := MakeDirs(w, ICloudSettingsDir(home)).value;
    assert !HasLocalSettings(w1);
    assert !IsICloudEnabled(w1);
  }

  /**
   * Enabling with a local settings file copies it into iCloud, after which
   * sync is enabled and iCloud is the active root; the local copy is deleted
   * exactly when the user confirms.
   */
  lemma EnableMigratesLocal(w: World)
    requires IsICloudSupported(w) && !IsICloudEnabled(w)
    requires LocalSettingsPath(w.home) in w.files
    requires CanMakeDirs(w, ICloudSettingsDir(w.home))
    ensures var r := EnableICloudSync(w);
            r.Waiting? <==> |w.answers| == 0
    ensures var r := EnableICloudSync(w);
            r.Returned? ==> r.value && |w.answers| > 0
                            && ICloudSettingsPath(w.home) in r.world.files
                            && r.world.files[ICloudSettingsPath(w.home)] == w.files[LocalSettingsPath(w.home)]
                            && (LocalSettingsPath(w.home) !in r.world.files <==> IsAffirmative(w.answers[0]))
                            && GetActiveSettingsDir(r.world) == ICloudSettingsDir(w.home)
    ensures var r := EnableICloudSync(w);
            r.Waiting? || (r.Returned? && !IsAffirmative(w.answers[0]))
            ==> r.world.files == w.files[ICloudSettingsPath(w.home) := w.files[LocalSettingsPath(w.home)]]
    ensures var r := EnableICloudSync(w);
            r.Returned? && IsAffirmative(w.answers[0])
            ==> r.world.files == w.files[ICloudSettingsPath(w.home) := w.files[LocalSettingsPath(w.home)]]
                                 - {LocalSettingsPath(w.home)}
  {
    var home := w.home;
    PathsDistinct(home);
    ICloudMkdirFacts(home);
    var w1 := MakeDirs(w, ICloudSettingsDir(home)).value;
    assert HasLocalSettings(w1);
    assert w1.files == w.files && w1.answers == w.answers;
    assert ICloudSettingsPath(home) !in w1.dirs;
    var m := MigrateLocalToICloud(w1);
    assert !m.Threw?;
    if m.Returned? {
      assert IsICloudEnabled(m.world);
      assert ICloudDir(home) in w1.dirs - {DefaultDir(home)} || ICloudDir(home) in w1.files - {LocalSettingsPath(home), ICloudSettingsPath(home)};
      assert IsICloudSupported(m.world);
    }
  }

  /**
   * `disableICloudSync`: true when sync is not enabled; otherwise it asks,
   * returns false on anything but `y`/`yes`, and moves the settings back to
   * the local root on confirmation. It does not check whether sync is supported.
   */
  function DisableICloudSync(w: World): (r: Run<bool>)
    ensures !r.Threw?
    ensures SameHost(w, r.world)
    ensures !IsICloudEnabled(w) ==> r == Returned(true, w)
    ensures IsICloudEnabled(w) && |w.answers| == 0 ==> r == Waiting(w)
    ensures IsICloudEnabled(w) && |w.answers| > 0 && !IsAffirmative(w.answers[0])
            ==> r == Returned(false, w.(answers := w.answers[1..]))
  {
    if !IsICloudEnabled(w) then Returned(true, w)
    else match Ask(w)
      case None => Waiting(w)
      case Some((answer, w1)) =>
        if !IsAffirmative(answer) then Returned(false, w1)
        else match MigrateICloudToLocal(w1)
          case Returned(_, w2) => Returned(true, w2)
          case Threw(w2) => Returned(false, w2)
          case Waiting(w2) => Waiting(w2)
  }

  /**
   * A confirmed disable reports true exactly when the move back succeeds,
   * and then the local file holds the former iCloud content and the local
   * root is active again.
   */
  lemma DisableConfirmed(w: World)
    requires WellFormed(w)
    requires IsICloudEnabled(w) && |w.answers| > 0 && IsAffirmative(w.answers[0])
    ensures var r := DisableICloudSync(w);
            && r.Returned?
            && r.world.answers == w.answers[1..]
            && (r.value <==> CanMakeDirs(w, DefaultDir(w.home)) && ICloudSettingsPath(w.home) in w.files
                             && LocalSettingsPath(w.home) !in w.dirs)
            && (r.value ==> && LocalSettingsPath(w.home) in r.world.files
                            && r.world.files[LocalSettingsPath(w.home)] == w.files[ICloudSettingsPath(w.home)]
                            && !IsICloudEnabled(r.world)
                            && GetActiveSettingsDir(r.world) == DefaultDir(w.home))
  {
    var home := w.home;
    PathsDistinct(home);
    LocalMkdirFacts(home);
    var w1 := w.(answers := w.answers[1..]);
    MigrateICloudToLocalMoves(w1);
    MigrateICloudToLocalDirs(w1);
    var m := MigrateICloudToLocal(w1);
    assert DisableICloudSync(w) == if m.Returned? then Returned(true, m.world) else Returned(false, m.world);
  }

  /**
   * `askToEnableICloudSync`, used at first run: the local root when sync is
   * unsupported, the iCloud root when already enabled, both without asking;
   * otherwise one question, and on `y`/`yes` the iCloud folder is created and
   * an existing local file migrated into it.
   */
  function AskToEnableICloudSync(w: World): (r: Run<string>)
    ensures SameHost(w, r.world)
    ensures r.Returned? ==> r.value == DefaultDir(w.home) || r.value == ICloudSettingsDir(w.home)
    ensures !IsICloudSupported(w) ==> r == Returned(DefaultDir(w.home), w)
    ensures IsICloudSupported(w) && IsICloudEnabled(w) ==> r == Returned(ICloudSettingsDir(w.home), w)
    ensures IsICloudSupported(w) && !IsICloudEnabled(w) && |w.answers| == 0 ==> r == Waiting(w)
    ensures IsICloudSupported(w) && !IsICloudEnabled(w) && |w.answers| > 0 && !IsAffirmative(w.answers[0])
            ==> r == Returned(DefaultDir(w.home), w.(answers := w.answers[1..]))
  {
    var home := w.home;
    if !IsICloudSupported(w) then Returned(DefaultDir(home), w)
    else if IsICloudEnabled(w) then Returned(ICloudSettingsDir(home), w)
    else
      var hasLocal := HasLocalSettings(w);
      match Ask(w)
      case None => Waiting(w)
      case Some((answer, w1)) =>
        if !IsAffirmative(answer) then Returned(DefaultDir(home), w1)
        else match MakeDirs(w1, ICloudSettingsDir(home))
          case Failure(_) => Threw(w1)
          case Success(w2) =>
            if !hasLocal then Returned(ICloudSettingsDir(home), w2)
            else match MigrateLocalToICloud(w2)
              case Threw(w3) => Threw(w3)
              case Waiting(w3) => Waiting(w3)
              case Returned(_, w3) => Returned(ICloudSettingsDir(home), w3)
  }

  /**
   * A `y`/`yes` at first run creates the iCloud folder and returns it; an
   * existing local file is copied there and the second question decides
   * whether the local copy goes. It throws only when the folder cannot be
   * created or the local settings path is not a readable file.
   */
  lemma AskToEnableAccepted(w: World)
    requires IsICloudSupported(w) && !IsICloudEnabled(w)
    requires |w.answers| > 0 && IsAffirmative(w.answers[0])
    ensures var r := AskToEnableICloudSync(w);
            r.Threw? <==> !CanMakeDirs(w, ICloudSettingsDir(w.home))
                          || (HasLocalSettings(w) && LocalSettingsPath(w.home) !in w.files)
    ensures var r := AskToEnableICloudSync(w);
            r.Returned? ==> r.value == ICloudSettingsDir(w.home) && ICloudSettingsDir(w.home) in r.world.dirs
                            && IsICloudSupported(r.world)
    ensures var r := AskToEnableICloudSync(w);
            !HasLocalSettings(w) && r.Returned? ==> r.world.files == w.files
    ensures var r := AskToEnableICloudSync(w);
            HasLocalSettings(w) && r.Returned?
            ==> && LocalSettingsPath(w.home) in w.files && |w.answers| > 1
                && ICloudSettingsPath(w.home) in r.world.files
                && r.world.files[ICloudSettingsPath(w.home)] == w.files[LocalSettingsPath(w.home)]
                && (LocalSettingsPath(w.home) !in r.world.files <==> IsAffirmative(w.answers[1]))
    ensures var r := AskToEnableICloudSync(w);
            r.Waiting? ==> HasLocalSettings(w) && |w.answers| == 1
    ensures var r := AskToEnableICloudSync(w);
            HasLocalSettings(w) && (r.Waiting? || (r.Returned? && !IsAffirmative(w.answers[1])))
            ==> r.world.files == w.files[ICloudSettingsPath(w.home) := w.files[LocalSettingsPath(w.home)]]
  {
    var home := w.home;
    PathsDistinct(home);
    ICloudMkdirFacts(home);
    var w1 := w.(answers := w.answers[1..]);
    if CanMakeDirs(w1, ICloudSettingsDir(home)) {
      var w2 := MakeDirs(w1, ICloudSettingsDir(home)).value;
      assert ICloudSettingsPath(home) !in w2.dirs;
      assert ICloudDir(home) in w2.dirs || ICloudDir(home) in w2.files;
      if HasLocalSettings(w) {
        var m := MigrateLocalToICloud(w2);
        if m.Returned? {
          assert ICloudDir(home) in w2.dirs - {DefaultDir(home)}
                 || ICloudDir(home) in w2.files - {LocalSettingsPath(home), ICloudSettingsPath(home)};
        }
      }
    }
  }
}
