/**
 * `ai config <subcommand>`: switching the active provider, showing the
 * current configuration, and the help text for anything else. The settings
 * object is the one already loaded; messages are reduced to an outcome.
 */
module ConfigCommand {
  import opened Wrappers
  import opened JsonValue
  import opened FileSystem
  import opened ICloudSync
  import opened KimiProvider
  import opened Providers
  import opened SettingsConstants
  import opened SettingsStore

  /** What `show` prints: the active provider, kimi's endpoint when kimi is configured, whether gemini is. */
  datatype Report = Report(active: Option<Json>, kimi: Option<Option<Json>>, gemini: bool)

  datatype Outcome =
    | Switched(provider: ProviderType)
    | Shown(report: Report)
    | Help
    | Exited(code: int)

  datatype CommandRun = CommandRun(outcome: Outcome, world: World)

  /** `settings.providers?.<provider>?.apiKey` is truthy. */
  predicate HasApiKey(settings: seq<Field>, provider: string) {
    Truthy(ProviderSetting(settings, provider, "apiKey"))
  }

  /** The document `switch` writes: the loaded settings with `provider` reassigned. */
  function WithProvider(settings: seq<Field>, provider: string): seq<Field> {
    Assign(settings, "provider", JStr(provider))
  }

  /**
   * `config switch <key>`: a missing or unregistered provider and a provider
   * without an API key both exit 1 before anything is saved; otherwise the
   * whole document is saved once with only `provider` changed.
   */
  function Switch(c: Constants, w: World, settings: seq<Field>, key: Option<string>): (r: CommandRun)
    ensures r.outcome.Switched? <==> key.Some? && key.value in ProviderNames() && HasApiKey(settings, key.value)
    ensures r.outcome.Switched? ==> Name(r.outcome.provider) == key.value
    ensures !r.outcome.Switched? ==> r.outcome == Exited(1) && r.world == w
    ensures SameHost(w, r.world) && r.world.dirs == w.dirs && r.world.answers == w.answers
  {
    if key.None? || key.value == "" || key.value !in ProviderNames() then CommandRun(Exited(1), w)
    else
      var provider := key.value;
      if provider == "gemini" && !HasApiKey(settings, "gemini") then CommandRun(Exited(1), w)
      else if provider == "kimi" && !HasApiKey(settings, "kimi") then CommandRun(Exited(1), w)
      else
        var saved := SaveSettings(c, w, JObj(WithProvider(settings, provider)), None);
        CommandRun(Switched(ParseProviderType(provider).value), saved.world)
  }

  /** `config show`: reads the settings and changes nothing. */
  function Show(settings: seq<Field>): (r: Report)
    ensures r.active == Lookup(settings, "provider")
    ensures r.kimi.Some? <==> HasApiKey(settings, "kimi")
    ensures r.kimi.Some? ==> r.kimi.value == ProviderSetting(settings, "kimi", "endpoint")
    ensures r.gemini <==> HasApiKey(settings, "gemini")
  {
    var kimi := if HasApiKey(settings, "kimi") then Some(ProviderSetting(settings, "kimi", "endpoint")) else None;
    Report(Lookup(settings, "provider"), kimi, HasApiKey(settings, "gemini"))
  }

  /** `configCommand(subcommand, key)`: only a successful `switch` touches the file system. */
  function Run(c: Constants, w: World, settings: seq<Field>, subcommand: string, key: Option<string>): (r: CommandRun)
    ensures subcommand == "switch" ==> r == Switch(c, w, settings, key)
    ensures subcommand == "show" ==> r == CommandRun(Shown(Show(settings)), w)
    ensures subcommand != "switch" ==> r.world == w
    ensures subcommand != "switch" && subcommand != "show" ==> r.outcome == Help
    ensures r.outcome.Exited? ==> subcommand == "switch" && r.outcome.code == 1 && r.world == w
    ensures !r.outcome.Switched? ==> r.world == w
  {
    if subcommand == "switch" then Switch(c, w, settings, key)
    else if subcommand == "show" then CommandRun(Shown(Show(settings)), w)
    else CommandRun(Help, w)
  }

  /**
   * A successful switch, when the settings directory exists and no directory
   * stands where the file goes, overwrites the settings file with a document
   * that agrees with the loaded settings on every key but `provider`, and
   * changes no other file. When the write fails the files are left as they were.
   */
  lemma SwitchChangesOnlyProvider(c: Constants, w: World, settings: seq<Field>, p: ProviderType)
    requires HasApiKey(settings, Name(p))
    ensures Switch(c, w, settings, Some(Name(p))).outcome == Switched(p)
    ensures var target := PathJoin(c.settingsDir, SettingsFileName);
            Switch(c, w, settings, Some(Name(p))).world.files
              == if c.settingsDir in w.dirs && target !in w.dirs
                 then w.files[target := Document(JObj(WithProvider(settings, Name(p))))]
                 else w.files
    ensures Lookup(WithProvider(settings, Name(p)), "provider") == Some(JStr(Name(p)))
    ensures forall k :: k != "provider" ==> Lookup(WithProvider(settings, Name(p)), k) == Lookup(settings, k)
  {
    NameRoundTrip(p);
    assert TargetPath(c, None) == PathJoin(c.settingsDir, SettingsFileName) && !HasDirectory(None);
  }

  /** `show` marks a provider configured exactly when `switch` would accept it. */
  lemma ShowAgreesWithSwitch(c: Constants, w: World, settings: seq<Field>, p: ProviderType)
    ensures Switch(c, w, settings, Some(Name(p))).outcome.Switched?
            <==> (match p
                  case Kimi => Show(settings).kimi.Some?
                  case Gemini => Show(settings).gemini)
  {
    NameRoundTrip(p);
  }
}
