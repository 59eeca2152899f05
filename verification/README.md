# ianai-cli settings, providers and Kimi stream parsing in Dafny

ianai-cli is a command-line tool that turns natural-language requests into
shell commands by asking an AI provider (Kimi or Gemini). This project models
the part of it that looks after the user's configuration and the part that
reaches a provider:

- **Where settings live** (`ICloudSync`). The settings directory is `~/.ianai`.
  On macOS it is the `ianai` folder of iCloud Drive instead, if iCloud Drive
  exists and that folder already holds a `settings.json`. The module also
  covers the status report and the three interactive flows: enabling sync,
  disabling it and offering it during initialisation. Enabling and the
  first-run offer copy `settings.json` into iCloud and then ask whether to
  delete the local copy. Disabling asks once whether to disable, then moves
  the file back and deletes the iCloud copy without a further question.
  A folder is removed only when it is empty.
- **Load-time constants** (`SettingsConstants`). `settingsDir` and
  `settingsFilePath` are fixed once, when the module loads. The module also
  covers the compatibility path helper, the list of available directories,
  and the blanking of whole `import …;`/`export …;` lines before the response
  schema is embedded in the system prompt. `SchemaText` proves what that
  blanking and the final trim do to the embedded text.
- **The settings schema** (`SettingsSchema`). The zod schema is modelled as a
  parser from a JSON document to typed settings or a list of issues. It covers
  the defaults (`providers = {}`, the kimi endpoint, the commitment block,
  `provider = kimi`) and the upper bounds. Unknown keys are ignored, as zod
  strips them. It also covers `getDefaults` and `validateSettings`: one log
  line per issue, named by the last path element only when the path is longer
  than one, then exit 1.
- **Saving and first run** (`SettingsStore`, `InitSettings`). `saveSettings`
  overwrites one file and swallows every error. `askForCustomObject` reads key
  and value answers until `done` in any letter case. `initSettings` writes the
  first document.
- **Providers** (`Providers`, `KimiProvider`). The registry holds the two
  provider names and `createProvider`'s dispatch. For Kimi, the model covers
  the configuration guard, the server-sent-event line parser and the
  concatenation of `cmpl` texts.
- **Commands** (`ConfigCommand`, `CreateMessage`). `ai config switch|show`,
  and `createMessage`'s configuration pre-check, part order and error
  wrapping.

Effects are made explicit:

- The file system, home directory, platform and prompt answers form a `World`
  value (`FileSystem`).
  - Files map paths to contents, and directories are a set of paths.
  - `mkdir -p` creates every `/`-prefix of the path.
  - `rmdir` succeeds only on an empty directory.
  - Answers are a script that prompts consume.
- An operation ends in a `Run` with three outcomes:
  - `Returned`: it returned;
  - `Threw`: an exception escaped;
  - `Waiting`: a prompt was reached with no answer left, and waits forever.
- JSON documents are ordered field lists (`JsonValue`), read with optional
  chaining and JavaScript truthiness. A property read takes the first field
  with that key. `JSON.parse` keeps the last of duplicate keys, so this is
  exact only on objects whose keys are distinct. Parsed objects have distinct
  keys, and `AssignKeepsDistinct` shows that assignment keeps them so.
- `zod`'s `.url()`, `configureProvider`, `safeJsonParse` and the provider
  network calls are function parameters.

Where the program's own help text and its source disagree, the model follows
the source:

- The help text of `ai config` (src/main.ts:26-44) lists `add` and `sync`
  subcommands. `src/commands/config.ts` has only `switch` and `show`; every
  other subcommand prints help. `switch` also saves without validating.
- Enabling iCloud sync when there is no local settings file only creates the
  iCloud folder. Since a folder without a `settings.json` does not count as
  enabled, the active directory stays `~/.ianai` afterwards.
  `EnableWithoutLocalOnlyCreatesDir` states this.
- `config switch kimi` checks only the API key, while `createMessage` also
  needs the endpoint. A switch can therefore succeed and leave every later
  message rejected. `KimiSwitchWithoutEndpoint` states this.

## Model

| member | source | states |
|---|---|---|
| FileSystem.ReadFile | src/settings/icloud-sync.ts:93 | `readFileSync` succeeds exactly on an existing file and returns its content |
| FileSystem.WriteFile | src/settings/icloud-sync.ts:94 | `writeFileSync` succeeds iff the parent directory exists and the path is not a directory; it replaces only that path |
| FileSystem.Unlink | src/settings/icloud-sync.ts:106 | `unlinkSync` succeeds iff the file exists and removes only it |
| FileSystem.RemoveDirIfEmpty | src/settings/icloud-sync.ts:107-111 | `rmdirSync` inside `try` removes the directory exactly when it exists and has no entries; otherwise nothing changes |
| FileSystem.MakeDirs | src/settings/icloud-sync.ts:124 | `mkdirSync(…, {recursive: true})` fails on the empty path or when the path or one of its prefixes is a file; otherwise it adds the directory and all its prefixes |
| FileSystem.Ask | src/settings/icloud-sync.ts:97-100 | a prompt consumes exactly the next scripted answer, and waits when none is left |
| ICloudSync.PathsDistinct | src/settings/icloud-sync.ts:8-22 | the local folder, the iCloud Drive folder, the iCloud settings folder and the two settings files are pairwise distinct paths |
| ICloudSync.ChecksSeeOnlyExistence | src/settings/icloud-sync.ts:27-46 | `isICloudSupported`, `isICloudEnabled` and `hasLocalSettings` depend only on the platform and on which paths exist, a directory counting as much as a file; contents and pending answers never matter |
| ICloudSync.GetActiveSettingsDir | src/settings/icloud-sync.ts:51-59 | the active directory is the iCloud settings folder iff sync is supported (darwin and iCloud Drive exists) and enabled (its `settings.json` exists), otherwise `~/.ianai` |
| ICloudSync.NoICloudDriveMeansLocal | src/settings/icloud-sync.ts:27-30 | without an iCloud Drive folder sync is unsupported and `~/.ianai` is active |
| ICloudSync.ICloudTakesPrecedence | src/settings/icloud-sync.ts:54-56 | when both settings files exist and sync is supported, the iCloud folder wins |
| ICloudSync.GetSettingsFilePath | src/settings/icloud-sync.ts:64-67 | a non-empty directory gives `directory/settings.json`; without one the path is one of the two settings files |
| ICloudSync.EmptyDirectoryMeansActive | src/settings/icloud-sync.ts:64-67 | an empty directory argument counts as absent; without one the path is the active folder's `settings.json`, iCloud exactly when enabled |
| ICloudSync.ExplicitDirectoryIgnoresWorld | src/settings/icloud-sync.ts:64-67 | with a non-empty directory the path is `directory/settings.json` whatever the machine state |
| ICloudSync.GetICloudStatus | src/settings/icloud-sync.ts:72-82 | the status flags agree with the three checks, the two paths differ, and the active path is the iCloud path iff supported and enabled |
| ICloudSync.AffirmativeAnswers | src/settings/icloud-sync.ts:102-105 | an answer confirms iff it is one of the ten letter-case spellings of `y` and `yes`; nothing is trimmed |
| ICloudSync.MigrateLocalToICloud | src/settings/icloud-sync.ts:87-113 | the iCloud file receives the local content; a declined answer, or an exhausted script, leaves every other file as it was, the local file included, and no directory changes; a confirmed answer deletes the local file and nothing else; only `~/.ianai` may disappear; after a confirmed answer it disappears iff it is then empty |
| ICloudSync.MigrateICloudToLocal | src/settings/icloud-sync.ts:118-137 | it completes iff `~/.ianai` can be created, the iCloud file exists and the local path is not a directory; it never asks |
| ICloudSync.MigrateICloudToLocalMoves | src/settings/icloud-sync.ts:124-131 | on completion the local file holds the former iCloud content, the iCloud file is gone and `~/.ianai` exists |
| ICloudSync.MigrateICloudToLocalFrame | src/settings/icloud-sync.ts:118-137 | no file other than the two settings files changes |
| ICloudSync.MigrateICloudToLocalDirs | src/settings/icloud-sync.ts:123-136 | directories only grow by `~/.ianai` and its prefixes, and after a completed move the iCloud folder disappears iff it is then empty |
| ICloudSync.EnableICloudSync | src/settings/icloud-sync.ts:142-172 | unsupported gives false with no change; already enabled gives true with no change; a failed mkdir gives false with no change; after the folder is made, the result is false iff the migration throws because something other than a file sits at the local settings path, and the folder stays; it never throws |
| ICloudSync.EnableWithoutLocalOnlyCreatesDir | src/settings/icloud-sync.ts:155-167 | without a local file, enabling returns true, creates only the folder, and sync is still not enabled afterwards |
| ICloudSync.EnableMigratesLocal | src/settings/icloud-sync.ts:155-167 | with a local file, enabling copies it into iCloud and makes iCloud active; a declined answer or an exhausted script leaves the local file and every other file as they were; a confirmed answer deletes only the local file |
| ICloudSync.DisableICloudSync | src/settings/icloud-sync.ts:177-193 | not enabled gives true with no change; a declined answer gives false and changes only the answer script |
| ICloudSync.DisableConfirmed | src/settings/icloud-sync.ts:195-204 | a confirmed disable returns true exactly when the move back can complete, and then the local file holds the content and `~/.ianai` is active |
| ICloudSync.AskToEnableICloudSync | src/settings/icloud-sync.ts:210-249 | unsupported gives `~/.ianai` without asking; already enabled gives the iCloud folder without asking; a decline gives `~/.ianai` with the files untouched |
| ICloudSync.AskToEnableAccepted | src/settings/icloud-sync.ts:234-246 | an accepted offer creates the iCloud folder and returns it; with a local file it also migrates, consuming a second answer, and a declined or missing second answer leaves every file but the new iCloud copy as it was |
| SettingsConstants.LoadConstants | src/constants/settings-constants.ts:17-19 | `settingsDir` is one of the two folders, the iCloud one iff sync is supported and enabled at load, and `settingsFilePath` is its `settings.json` |
| SettingsConstants.GetSettingsFilePathCompat | src/constants/settings-constants.ts:22-24 | the compatibility helper gives `directory/settings.json` for a non-empty directory and the active folder's file otherwise |
| SettingsConstants.CompatAgreesAtLoad | src/constants/settings-constants.ts:17-24 | at load time the compatibility helper and the snapshot name the same file |
| SettingsConstants.GetAvailableSettingsDirs | src/constants/settings-constants.ts:27-38 | `local` is always `~/.ianai`; `icloud` is present iff sync is supported and is then the iCloud folder |
| SettingsConstants.ActiveIsAvailable | src/constants/settings-constants.ts:27-38 | the active directory is always one of the available ones |
| SettingsConstants.StripSingleLine | src/constants/settings-constants.ts:52 | a single line is blanked iff it is a whole `import …;` or `export …;` statement and kept unchanged otherwise |
| SchemaText.StripKeepsLineBreaks | src/constants/settings-constants.ts:52 | blanking keeps every line terminator, in order, so the line structure of the schema text is unchanged |
| SettingsConstants.EmbeddedSchema | src/constants/settings-constants.ts:52 | after blanking, `.trim()` leaves the contiguous slice of the blanked text that remains once whitespace is removed at both ends: everything dropped before and after it is whitespace, and the slice neither starts nor ends with whitespace |
| Text.Trim | src/constants/settings-constants.ts:52 | `.trim()` returns a slice of its input preceded and followed only by trimmable characters, with no trimmable character at either end; an input already without such ends is returned unchanged |
| SchemaText.EmbeddedSchemaDropsImport | src/constants/settings-constants.ts:52 | a schema text that opens with an import line and ends with a line break embeds as its body alone |
| SettingsConstants.StripAppend | src/constants/settings-constants.ts:52 | line blanking works line by line: it commutes with joining two texts at any line terminator |
| SettingsStore.SaveSettings | src/settings/save-settings.ts:11-26 | the file is written iff the directory argument (if any) can be created, the directory exists and the target is not a directory; the target is `directory/settings.json`, or without a directory the load-time `settingsFilePath` built from `settingsDir`; only the target file changes; errors never escape |
| SettingsStore.SaveThenRead | src/settings/save-settings.ts:13-22 | a saved document reads back unchanged from the path the compatibility helper names |
| SettingsStore.SaveUsesLoadTimePath | src/settings/save-settings.ts:13-15 | without a directory the target is the load-time path, which differs from the current one once the active folder has moved |
| SettingsSchema.ParseString | src/settings/settings-schema.ts:13 | a string is accepted exactly as itself; anything else is one issue at the path, `Missing` for undefined |
| SettingsSchema.ParseUrl | src/settings/settings-schema.ts:12 | accepted iff a string the URL check accepts |
| SettingsSchema.ParseOptionalUrl | src/settings/settings-schema.ts:34 | undefined passes as absent; a present value must be a URL string |
| SettingsSchema.ParseOptionalMax | src/settings/settings-schema.ts:29-30 | undefined passes; a number passes iff it is at most the bound, with no lower bound |
| SettingsSchema.ParseCommitType | src/settings/settings-schema.ts:31 | accepted iff absent, `''` or `conventional`, and `conventional` is the only way to get `Conventional` |
| SettingsSchema.ParseKimi | src/settings/settings-schema.ts:10-15 | absent gives no entry; an accepted entry comes from an object, keeps its `apiKey` string, and has an endpoint that passes the URL check |
| SettingsSchema.ParseGemini | src/settings/settings-schema.ts:16-21 | absent gives no entry; an accepted entry comes from an object, keeps its `apiKey` string, and any endpoint it has passes the URL check |
| SettingsSchema.ParseProviders | src/settings/settings-schema.ts:8-23 | an absent `providers` becomes the empty configuration |
| SettingsSchema.ParseMetadata | src/settings/settings-schema.ts:25 | `metadata` is accepted iff absent or an object, and is kept as given |
| SettingsSchema.ParseHeaders | src/settings/settings-schema.ts:26 | a payload object is accepted iff every value is a string; the headers keep order; issues are named `payload.<key>` |
| SettingsSchema.ParsePayload | src/settings/settings-schema.ts:26 | an absent `payload` stays absent |
| SettingsSchema.CommitmentFrom | src/settings/settings-schema.ts:28-32 | accepted commitment numbers respect their upper bounds |
| SettingsSchema.ParseCommitment | src/settings/settings-schema.ts:27-33 | an accepted commitment respects `generate <= 10` and `maxlength <= 100` |
| SettingsSchema.ParseProvider | src/settings/settings-schema.ts:35 | absent gives kimi; a present value is accepted iff it is the string name of a registered provider |
| SettingsSchema.SettingsFrom | src/settings/settings-schema.ts:7-36 | the document is accepted iff every field is, and the issues are all fields' issues in field order |
| SettingsSchema.ParseSettings | src/settings/settings-schema.ts:7-36 | every accepted document yields settings satisfying all schema constraints; a rejection carries at least one issue |
| SettingsSchema.HeadersRoundTrip | src/settings/settings-schema.ts:26 | writing headers as an object and parsing it back gives the same headers |
| SettingsSchema.KimiRoundTrip | src/settings/settings-schema.ts:10-15 | a kimi entry with a URL endpoint survives writing and re-parsing |
| SettingsSchema.GeminiRoundTrip | src/settings/settings-schema.ts:16-21 | a gemini entry survives writing and re-parsing |
| SettingsSchema.ProvidersRoundTrip | src/settings/settings-schema.ts:8-23 | valid provider settings survive writing and re-parsing |
| SettingsSchema.CommitmentRoundTrip | src/settings/settings-schema.ts:27-33 | a commitment within bounds survives writing and re-parsing |
| SettingsSchema.PayloadRoundTrip | src/settings/settings-schema.ts:26 | an optional payload survives writing and re-parsing |
| SettingsSchema.ProviderFieldRoundTrip | src/settings/settings-schema.ts:35 | each provider's name parses back to that provider |
| SettingsSchema.SettingsRoundTrip | src/settings/settings-schema.ts:7-36 | settings satisfying the schema survive writing and re-parsing unchanged |
| SettingsSchema.ParseIsIdempotent | src/settings/settings-schema.ts:7-36 | parsing the written form of parsed settings gives the same settings |
| SettingsSchema.GetDefaults | src/settings/settings-schema.ts:40-44 | the defaults satisfy every schema constraint whatever the URL check |
| SettingsSchema.DefaultsParseEmpty | src/settings/settings-schema.ts:40-44 | `getDefaults` is `parse({})`: kimi, no providers, commitment `{1, 60, ''}`, nothing else |
| SettingsSchema.CommitmentDefault | src/settings/settings-schema.ts:33 | an absent commitment becomes `{generate: 1, maxlength: 60, type: ''}` |
| SettingsSchema.CommitmentUpperBoundsOnly | src/settings/settings-schema.ts:29-30 | numbers are accepted iff within the upper bounds, negative ones included |
| SettingsSchema.KimiEndpointDefault | src/settings/settings-schema.ts:12 | a kimi entry without an endpoint gets `https://kimi.moonshot.cn/api`, accepted iff that passes the URL check |
| SettingsSchema.ProviderDefaultsToKimi | src/settings/settings-schema.ts:35 | an accepted document without `provider` selects kimi |
| SettingsSchema.DeepFields | src/settings/settings-schema.ts:50-51 | one log name per issue, the last path element only when the path has more than one element |
| SettingsSchema.ValidateSettings | src/settings/settings-schema.ts:46-59 | validation passes iff the schema accepts the document; a rejection logs one line per issue and exits 1 |
| SettingsSchema.ValidateAcceptsEncoded | src/settings/settings-schema.ts:46-48 | the written form of valid settings always passes validation |
| SettingsSchema.MissingApiKeyIsNamed | src/settings/settings-schema.ts:49-53 | a kimi entry without `apiKey` is rejected with the line named `apiKey` |
| SettingsSchema.UnknownProviderIsUnnamed | src/settings/settings-schema.ts:49-53 | an unregistered `provider` is rejected with one line whose name is undefined, the path having length one |
| InitSettings.Store | src/settings/init-settings.ts:74 | `obj[key] = value` sets the key to the string and leaves every other key alone; `__proto__` is not stored |
| InitSettings.StoreKeys | src/settings/init-settings.ts:74 | a store adds no key other than the one entered |
| InitSettings.DoneAnswers | src/settings/init-settings.ts:67 | a key answer stops the collection iff it is `done` in any mix of cases, with nothing trimmed |
| InitSettings.Collect | src/settings/init-settings.ts:61-76 | a finished collection leaves a proper suffix of the answers, the one right after a `done` answer; with no `done` answer at all it never finishes |
| InitSettings.AskForCustomObject | src/settings/init-settings.ts:54-79 | the prompt loop returns exactly what the reference collector gives, touches nothing but the answer script, and waits when answers run out before `done` |
| InitSettings.CollectScript | src/settings/init-settings.ts:61-76 | key/value answers followed by a `done` answer in any case yield the stored object and leave the answers after `done` |
| InitSettings.CollectWithoutDoneWaits | src/settings/init-settings.ts:61-76 | key/value answers without `done` never finish |
| InitSettings.StoreAllLookup | src/settings/init-settings.ts:69-75 | each stored key holds the value entered the last time, and other keys are untouched |
| InitSettings.StoreAllKeys | src/settings/init-settings.ts:58-78 | the object's keys are among the entered keys, never `__proto__` and never a `done` spelling |
| InitSettings.StoreAllKeysFrom | src/settings/init-settings.ts:58-78 | every key after storing comes from the starting object or from an entered key |
| InitSettings.InitialEntriesFields | src/settings/init-settings.ts:15-21 | the first document's literal has `payload` and `metadata` empty, the given commitment and provider, the spread provider configuration, and no proxy |
| InitSettings.InitialDocumentFields | src/settings/init-settings.ts:31-39 | the written document carries the chosen provider, the default commitment, the spread provider configuration and empty `payload`/`metadata`, so the collected headers are discarded |
| InitSettings.InitialDocumentIsValid | src/settings/init-settings.ts:15-39 | for a registered provider and an acceptable provider configuration, the first document passes the schema with the default commitment and the chosen provider |
| InitSettings.InitSettings | src/settings/init-settings.ts:13-52 | a failing mkdir throws; the run completes, exiting 0, iff mkdir succeeds and the provider answer, the configuration prompts and a `done` are all available; it then leaves the answers after that `done`; a waiting run has changed no file |
| InitSettings.SaveAfterMakeDirs | src/settings/save-settings.ts:13-22 | saving without a directory into a freshly created settings folder writes the file unless a directory stands there |
| InitSettings.InitSettingsWrites | src/settings/init-settings.ts:14-49 | a completed first run leaves the settings folder and the first document in `settings.json`; no other file changes |
| KimiProvider.CheckKimiConfig | src/providers/kimi.ts:38-45 | the guard passes iff both `providers.kimi.apiKey` and `endpoint` are truthy; otherwise the fixed configuration error |
| KimiProvider.FlatMapAppend | src/providers/kimi.ts:109-113 | processing lines independently distributes over concatenation of line lists |
| KimiProvider.EventsOf | src/providers/kimi.ts:111-113 | the lines yield no more events than there are lines |
| KimiProvider.ParseStreamData | src/providers/kimi.ts:108-114 | never more events than `\n`-separated pieces |
| KimiProvider.ParseStreamDataAppend | src/providers/kimi.ts:108-114 | the events of two chunks joined by `\n` are the first chunk's events followed by the second's, so order is kept |
| KimiProvider.ParseStreamDataLine | src/providers/kimi.ts:108-114 | a single line yields its trimmed payload iff it starts with `data:` after trimming, and nothing otherwise |
| KimiProvider.PayloadAfterMarker | src/providers/kimi.ts:113 | `data: X` yields `X` |
| KimiProvider.PayloadWithoutMarker | src/providers/kimi.ts:113 | a kept line without `data: `, such as `data:X`, is unchanged |
| KimiProvider.ExtractContentFromEvents | src/providers/kimi.ts:116-134 | succeeds iff every event parses, then gives the concatenated texts of non-empty `cmpl` events in order; otherwise the fixed JSON parse error |
| Providers.ProviderNames | src/providers/index.ts:6-11 | the registered names are exactly `kimi`, `gemini`, in that order |
| Providers.ParseProviderType | src/providers/index.ts:13 | a string is a provider type iff it is a registered name, and it maps back to that name |
| Providers.NameRoundTrip | src/providers/index.ts:6-13 | every provider's name is registered and parses back to the provider |
| Providers.ListComplete | src/providers/index.ts:11 | every provider is in the list exactly once |
| Providers.CreateProvider | src/providers/index.ts:15-29 | `kimi` reaches the Kimi chat after its configuration guard, `gemini` the Gemini provider, anything else throws `Unknown provider type` |
| Providers.UnknownNeverSends | src/providers/index.ts:26-27 | an unregistered name fails with `Error: Unknown provider type: <name>` |
| ConfigCommand.Switch | src/commands/config.ts:13-34 | switch succeeds iff the key names a registered provider whose `apiKey` is truthy; every failure exits 1 with nothing saved; success saves with no directory |
| ConfigCommand.Show | src/commands/config.ts:35-51 | reports the stored `provider`, kimi as configured iff its `apiKey` is truthy (with its endpoint only then), and gemini likewise |
| ConfigCommand.Run | src/commands/config.ts:6-57 | `switch` performs the provider switch and `show` reports the configured providers of the given settings; only a successful `switch` changes the file system; any other subcommand prints help; exits are code 1 from `switch` only |
| ConfigCommand.SwitchChangesOnlyProvider | src/commands/config.ts:32-33 | a successful switch overwrites only the settings file with the loaded settings whose `provider` alone is replaced |
| ConfigCommand.ShowAgreesWithSwitch | src/commands/config.ts:23-51 | `show` marks a provider configured exactly when `switch` accepts it |
| CreateMessage.MessageParts | src/create-message.ts:47-58 | the metadata section first iff metadata has a key, then the system prompt iff non-empty, and the message always last |
| CreateMessage.ConfiguredMeansSwitchable | src/create-message.ts:29-38 | the pre-check accepts exactly when the stored provider is one `config switch` would accept and, for kimi, the endpoint is also truthy |
| CreateMessage.CreateMessage | src/create-message.ts:22-72 | exits 1 iff the message is empty or the active provider is unconfigured; a failure is reported with the `Failed to send message: ` prefix |
| CreateMessage.SendsToActiveProvider | src/create-message.ts:29-72 | after the pre-check the provider's own guard never fires and `Unknown provider type` is unreachable; the outcome is what the active implementation returns |
| CreateMessage.UnconfiguredNeverSends | src/create-message.ts:40-45 | an unconfigured provider is never invoked: the outcome is exit 1 whatever the provider would do |
| CreateMessage.KimiSwitchWithoutEndpoint | src/create-message.ts:32-35 | with a kimi key but no endpoint, `config switch kimi` succeeds, yet every message with the saved document exits 1 |

## Left out

- The real file system, `os.homedir()` and `os.platform()`. They are the `World` value. Relative paths, `..` and `path.join` normalisation are not modelled. Paths are joined with `/`.
- `readline`, `askQuestion` and `@clack/prompts`. They are a script of answers. `toLowerCase` is modelled for ASCII letters only, which is exact for the comparisons with `y`, `yes` and `done`.
- Logger output and message wording. Only exit codes, return values and the error strings the program rethrows are modelled.
- JSON text. `JSON.stringify`, `JSON.parse`, `safeJsonParse` and `removedJsonPrefix` are not modelled: documents are JSON values, and event parsing is a parameter.
- `getSettings` (src/settings/get-settings.ts is not part of this model). Commands receive the loaded settings object.
- `generateSectionTemplate` and `joinStrings` (src/utils/str.ts is not part of this model). The request is the list of parts in push order.
- The HTTP exchanges of `createKimiChat` and `createGeminiProvider`. They are the `send` parameter, which returns the reply or the rendered error.
- src/providers/gemini.ts and src/main.ts, which are callers and context.
- `configureProvider`, whose source is not part of this model. It is a parameter that maps the provider name and the remaining answers to a provider configuration.
- zod's `.url()` check. It is the `isUrl` parameter.
- zod's numbers. They are integers, so floating-point values and `NaN` are not modelled.
- zod issue messages. Only issue paths and kinds are modelled.
- The key order of objects built by assignment. `Assign` appends a new key at the end, while JavaScript lists integer-like keys first. Property reads do not depend on key order.
- Concurrency and interleaving of the asynchronous calls. Each flow runs to completion on its own.
- SettingsSchema.ParseSettings: its contract states only that accepted documents are valid and that rejections are non-empty. The exact set of accepted documents follows from the per-field parser contracts, `SettingsFrom` and `SettingsRoundTrip` rather than from one clause.
- KimiProvider.ExtractContentFromEvents: events whose `text` is not a string are not modelled. An absent `text` reads as the empty string.
- ICloudSync.MigrateLocalToICloud: a failing `rmdirSync` for reasons other than a non-empty directory (permissions) is not modelled.
