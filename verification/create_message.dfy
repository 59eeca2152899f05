/**
 * `createMessage`: the guard that the active provider is configured, the
 * order in which the request text is assembled, and the wrapping of a
 * provider failure. The settings object is the one already loaded.
 */
module CreateMessage {
  import opened Wrappers
  import opened JsonValue
  import opened FileSystem
  import opened KimiProvider
  import opened Providers
  import opened SettingsConstants
  import ConfigCommand

  /** One piece of the request text, before `joinStrings`. */
  datatype Part = MetadataSection(entries: seq<Field>) | Plain(text: string)

  datatype MessageOutcome = Exited(code: int) | Replied(content: string) | Failed(error: string)

  const SendFailurePrefix := "Failed to send message: "

  /** `metadata && Object.keys(metadata).length !== 0`. */
  predicate HasMetadata(metadata: Option<seq<Field>>) {
    metadata.Some? && |metadata.value| != 0
  }

  /** `systemPrompt` is truthy. */
  predicate HasSystemPrompt(systemPrompt: Option<string>) {
    systemPrompt.Some? && systemPrompt.value != ""
  }

  /** The pieces pushed onto `messageStrings`, in push order. */
  function MessageParts(message: string, metadata: Option<seq<Field>>, systemPrompt: Option<string>): (r: seq<Part>)
    ensures |r| == 1 + (if HasMetadata(metadata) then 1 else 0) + (if HasSystemPrompt(systemPrompt) then 1 else 0)
    ensures r[|r| - 1] == Plain(message)
    ensures r[0].MetadataSection? <==> HasMetadata(metadata)
    ensures HasMetadata(metadata) ==> r[0] == MetadataSection(metadata.value)
    ensures forall i :: 0 < i < |r| ==> r[i].Plain?
    ensures HasSystemPrompt(systemPrompt) ==> r[|r| - 2] == Plain(systemPrompt.value)
  {
    var section := if HasMetadata(metadata) then [MetadataSection(metadata.value)] else [];
    var prompt := if HasSystemPrompt(systemPrompt) then [Plain(systemPrompt.value)] else [];
    section + prompt + [Plain(message)]
  }

  /** The `isConfigured` flag: kimi needs a key and an endpoint, gemini a key, anything else is unconfigured. */
  predicate IsConfigured(settings: seq<Field>) {
    var current := Lookup(settings, "provider");
    if current == Some(JStr("kimi")) then
      Truthy(ProviderSetting(settings, "kimi", "apiKey")) && Truthy(ProviderSetting(settings, "kimi", "endpoint"))
    else if current == Some(JStr("gemini")) then
      Truthy(ProviderSetting(settings, "gemini", "apiKey"))
    else false
  }

  /**
   * The pre-check accepts exactly the settings whose stored provider
   * `config switch` would accept, plus, for kimi, a truthy endpoint.
   */
  lemma ConfiguredMeansSwitchable(c: Constants, w: World, settings: seq<Field>)
    ensures var current := Lookup(settings, "provider");
            IsConfigured(settings) <==>
              && current.Some? && current.value.JStr?
              && ConfigCommand.Switch(c, w, settings, Some(current.value.s)).outcome.Switched?
              && (current.value.s == "kimi" ==> Truthy(ProviderSetting(settings, "kimi", "endpoint")))
  {
  }

  /** The implementation the active provider name reaches. */
  function ActiveBackend(settings: seq<Field>): Backend {
    if Lookup(settings, "provider") == Some(JStr("kimi")) then KimiChat else GeminiProvider
  }

  /**
   * `createMessage`: an empty message or an unconfigured provider exits 1;
   * otherwise the parts go to `createProvider` under the active provider's
   * name, and a failure comes back prefixed.
   */
  function CreateMessage(settings: seq<Field>, message: string, metadata: Option<seq<Field>>, systemPrompt: Option<string>,
                         send: (Backend, seq<Part>) -> Result<string, string>): (r: MessageOutcome)
    ensures r.Exited? <==> message == "" || !IsConfigured(settings)
    ensures r.Exited? ==> r.code == 1
    ensures r.Failed? ==> |r.error| >= |SendFailurePrefix| && r.error[..|SendFailurePrefix|] == SendFailurePrefix
  {
    if message == "" then Exited(1)
    else if !IsConfigured(settings) then Exited(1)
    else
      var name := Lookup(settings, "provider").value.s;
      match CreateProvider(name, settings, MessageParts(message, metadata, systemPrompt), send)
      case Success(content) => Replied(content)
      case Failure(error) => Failed(SendFailurePrefix + error)
  }

  /**
   * Once the pre-check passes, the provider's own configuration guard never
   * fires and `Unknown provider type` is unreachable: the outcome is exactly
   * what the active implementation returns for the assembled parts.
   */
  lemma SendsToActiveProvider(settings: seq<Field>, message: string, metadata: Option<seq<Field>>,
                              systemPrompt: Option<string>, send: (Backend, seq<Part>) -> Result<string, string>)
    requires message != "" && IsConfigured(settings)
    ensures var sent := send(ActiveBackend(settings), MessageParts(message, metadata, systemPrompt));
            CreateMessage(settings, message, metadata, systemPrompt, send)
              == if sent.Success? then Replied(sent.value) else Failed(SendFailurePrefix + sent.error)
  {
  }

  /** An unconfigured provider is never invoked: the outcome does not depend on `send` at all. */
  lemma UnconfiguredNeverSends(settings: seq<Field>, message: string, metadata: Option<seq<Field>>,
                               systemPrompt: Option<string>,
                               send1: (Backend, seq<Part>) -> Result<string, string>,
                               send2: (Backend, seq<Part>) -> Result<string, string>)
    requires !IsConfigured(settings)
    ensures CreateMessage(settings, message, metadata, systemPrompt, send1) == Exited(1)
    ensures CreateMessage(settings, message, metadata, systemPrompt, send1)
            == CreateMessage(settings, message, metadata, systemPrompt, send2)
  {
  }

  /**
   * `config switch kimi` checks only the key: with a kimi key but no usable
   * endpoint the switch succeeds, yet every message sent afterwards with the
   * saved document exits 1.
   */
  lemma KimiSwitchWithoutEndpoint(c: Constants, w: World, settings: seq<Field>, message: string,
                                  metadata: Option<seq<Field>>, systemPrompt: Option<string>,
                                  send: (Backend, seq<Part>) -> Result<string, string>)
    requires ConfigCommand.HasApiKey(settings, "kimi")
    requires !Truthy(ProviderSetting(settings, "kimi", "endpoint"))
    ensures ConfigCommand.Switch(c, w, settings, Some("kimi")).outcome == ConfigCommand.Switched(Kimi)
    ensures CreateMessage(ConfigCommand.WithProvider(settings, "kimi"), message, metadata, systemPrompt, send) == Exited(1)
  {
    var switched := ConfigCommand.WithProvider(settings, "kimi");
    assert Lookup(switched, "providers") == Lookup(settings, "providers");
  }
}
