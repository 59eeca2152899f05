/**
 * The settings constants: the settings directory and file path fixed when
 * the program loads, the compatibility path helpers, and the cleaning of
 * the response-schema source that is embedded in the system prompt.
 */
module SettingsConstants {
  import opened Text
  import opened Wrappers
  import opened FileSystem
  import opened ICloudSync

  /**
   * The values computed once, when the constants module is loaded: the
   * settings directory, and the file path built from it by a template string.
   */
  datatype Constants = Constants(settingsDir: string) {
    /** `settingsFilePath`: `${settingsDir}/${settingsFileName}`. */
    function SettingsFilePath(): string {
      settingsDir + "/" + SettingsFileName
    }
  }

  /** The load-time snapshot: the active directory then, and `settings.json` inside it. */
  function LoadConstants(w: World): (c: Constants)
    ensures c.settingsDir == DefaultDir(w.home) || c.settingsDir == ICloudSettingsDir(w.home)
    ensures c.settingsDir == ICloudSettingsDir(w.home) <==> IsICloudSupported(w) && IsICloudEnabled(w)
    ensures c.SettingsFilePath() == GetSettingsFilePath(w, None)
  {
    Constants(GetActiveSettingsDir(w))
  }

  /** `getSettingsFilePathCompat`: the iCloud module's path, evaluated now rather than at load time. */
  function GetSettingsFilePathCompat(w: World, directory: Option<string>): (p: string)
    ensures directory.Some? && directory.value != "" ==> p == PathJoin(directory.value, SettingsFileName)
    ensures (directory.None? || directory == Some("")) ==> p == PathJoin(GetActiveSettingsDir(w), SettingsFileName)
  {
    GetSettingsFilePath(w, directory)
  }

  /** Evaluated in the world the constants were loaded in, the compatibility path is the constant path. */
  lemma CompatAgreesAtLoad(w: World)
    ensures GetSettingsFilePathCompat(w, None) == LoadConstants(w).SettingsFilePath()
  {
  }

  datatype AvailableDirs = AvailableDirs(local: string, icloud: Option<string>)

  /** `getAvailableSettingsDirs`: the local root always, the iCloud root exactly when sync is supported. */
  function GetAvailableSettingsDirs(w: World): (r: AvailableDirs)
    ensures r.local == DefaultDir(w.home)
    ensures r.icloud.Some? <==> IsICloudSupported(w)
    ensures r.icloud.Some? ==> r.icloud.value == ICloudSettingsDir(w.home)
  {
    var status := GetICloudStatus(w);
    AvailableDirs(status.localPath, if status.supported then Some(status.iCloudPath) else None)
  }

  /** The active directory is always one of the available ones. */
  lemma ActiveIsAvailable(w: World)
    ensures var a := GetAvailableSettingsDirs(w);
            GetActiveSettingsDir(w) == a.local || Some(GetActiveSettingsDir(w)) == a.icloud
  {
  }

  /** The index of the first line terminator in `s`, or `|s|` when there is none. */
  function LineEnd(s: string): (n: nat)
    ensures n <= |s|
    ensures n < |s| ==> IsLineTerminator(s[n])
  {
    if |s| == 0 || IsLineTerminator(s[0]) then 0 else 1 + LineEnd(s[1..])
  }

  /** A line the pattern `^(import|export) .*;$` matches in multi-line mode: it is blanked. */
  predicate IsModuleStatement(line: string) {
    (StartsWith(line, "import ") || StartsWith(line, "export "))
    && |line| > 0 && line[|line| - 1] == ';'
  }

  /** What is left of one line: nothing for a module statement, the line itself otherwise. */
  function Kept(line: string): string {
    if IsModuleStatement(line) then "" else line
  }

  /**
   * `schemaString.replace(/^(import|export) .*;$/gm, '')`: every line that
   * is an import or export statement becomes empty; its line terminator
   * stays, and all other lines are kept.
   */
  function StripModuleStatements(s: string): (r: string)
    ensures |r| <= |s|
    decreases |s|
  {
    var n := LineEnd(s);
    if n == |s| then Kept(s[..n]) else Kept(s[..n]) + [s[n]] + StripModuleStatements(s[n + 1..])
  }

  /** The cleaned schema text the system prompt embeds: blanked module lines, then `.trim()`. */
  function EmbeddedSchema(schemaSource: string): (r: string)
    ensures |r| <= |schemaSource|
    ensures r == [] || (!IsTrimmable(r[0]) && !IsTrimmable(r[|r| - 1]))
    ensures exists i :: IsTrimmedSlice(StripModuleStatements(schemaSource), r, i)
  {
    Trim(StripModuleStatements(schemaSource))
  }

  /** A single line is blanked when it is a module statement and kept otherwise. */
  lemma StripSingleLine(line: string)
    requires forall i :: 0 <= i < |line| ==> !IsLineTerminator(line[i])
    ensures StripModuleStatements(line) == if IsModuleStatement(line) then "" else line
  {
    assert line[..|line|] == line;
  }

  /** Lines are handled independently: cleaning two texts joined by a line terminator joins the cleaned texts. */
  lemma {:induction false} StripAppend(a: string, t: char, b: string)
    requires IsLineTerminator(t)
    ensures StripModuleStatements(a + [t] + b) == StripModuleStatements(a) + [t] + StripModuleStatements(b)
    decreases |a|
  {
    var s := a + [t] + b;
    var n := LineEnd(a);
    LineEndClean(a);
    if n == |a| {
      assert s[..n] == a[..n];
      LineEndAt(s, n);
      DropPrefix(a + [t], b);
    } else {
      assert s[..n] == a[..n];
      LineEndAt(s, n);
      var k := Kept(a[..n]);
      var ra := StripModuleStatements(a[n + 1..]);
      var rb := StripModuleStatements(b);
      assert StripModuleStatements(a) == k + [a[n]] + ra;
      var tail := a[n + 1..] + ([t] + b);
      assert s == a + ([t] + b);
      SliceOfAppend(a, [t] + b, n + 1);
      assert StripModuleStatements(s) == k + [a[n]] + StripModuleStatements(tail);
      assert tail == a[n + 1..] + [t] + b;
      StripAppend(a[n + 1..], t, b);
      Associate(k + [a[n]], ra, [t], rb);
    }
  }

  lemma SliceOfAppend(x: string, y: string, i: nat)
    requires i <= |x|
    ensures (x + y)[i..] == x[i..] + y
  {
  }

  lemma Associate(p: string, q: string, u: string, v: string)
    ensures p + (q + u + v) == p + q + u + v
  {
  }

  lemma DropPrefix(x: string, y: string)
    ensures (x + y)[|x|..] == y
  {
  }

  /** `LineEnd` stops at the first terminator. */
  lemma {:induction false} LineEndClean(s: string)
    ensures forall i :: 0 <= i < LineEnd(s) ==> !IsLineTerminator(s[i])
  {
    if |s| > 0 && !IsLineTerminator(s[0]) {
      LineEndClean(s[1..]);
      assert forall i :: 1 <= i < LineEnd(s) ==> s[i] == s[1..][i - 1];
    }
  }

  lemma {:induction false} LineEndAt(s: string, n: nat)
    requires n < |s| && IsLineTerminator(s[n])
    requires forall i :: 0 <= i < n ==> !IsLineTerminator(s[i])
    ensures LineEnd(s) == n
    decreases n
  {
    if n > 0 {
      LineEndAt(s[1..], n - 1);
    }
  }
}
