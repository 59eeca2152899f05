/**
 * The provider registry: the two provider names and the dispatch from a
 * name to a provider implementation.
 */
module Providers {
  import opened Wrappers
  import opened JsonValue
  import opened KimiProvider

  datatype ProviderType = Kimi | Gemini

  /** The string each provider is registered under. */
  function Name(p: ProviderType): string {
    match p
    case Kimi => "kimi"
    case Gemini => "gemini"
  }

  /** `providerTypeList`: the registered providers in declaration order. */
  const ProviderTypeList: seq<ProviderType> := [Kimi, Gemini]

  /** The registered names, in the same order. */
  function ProviderNames(): (r: seq<string>)
    ensures |r| == |ProviderTypeList|
    ensures forall i :: 0 <= i < |r| ==> r[i] == Name(ProviderTypeList[i])
  {
    ["kimi", "gemini"]
  }

  /** The provider registered under `s`, if any; the comparison is exact. */
  function ParseProviderType(s: string): (r: Option<ProviderType>)
    ensures r.Some? <==> s in ProviderNames()
    ensures r.Some? ==> Name(r.value) == s
  {
    if s == "kimi" then Some(Kimi)
    else if s == "gemini" then Some(Gemini)
    else None
  }

  /** Names and providers are in one-to-one correspondence. */
  lemma NameRoundTrip(p: ProviderType)
    ensures ParseProviderType(Name(p)) == Some(p)
    ensures Name(p) in ProviderNames()
  {
  }

  /** Every provider is in the list exactly once. */
  lemma ListComplete(p: ProviderType)
    ensures p in ProviderTypeList
    ensures multiset(ProviderTypeList)[p] == 1
  {
  }

  /** A thrown `Error` as `String(error)` renders it. */
  function ErrorString(message: string): string {
    "Error: " + message
  }

  /** The two implementations a name can reach. */
  datatype Backend = KimiChat | GeminiProvider

  /**
   * `createProvider`. The settings the Kimi implementation reads are passed
   * in; `send` stands for the network exchange of the chosen implementation
   * after its own configuration guard, and returns the reply or the text of
   * the error it raised.
   */
  function CreateProvider<P>(providerName: string, settings: seq<Field>, config: P,
                             send: (Backend, P) -> Result<string, string>): (r: Result<string, string>)
    ensures ParseProviderType(providerName).None? ==>
              r == Failure(ErrorString("Unknown provider type: " + providerName))
    ensures providerName == "gemini" ==> r == send(GeminiProvider, config)
    ensures providerName == "kimi" ==>
              r == if CheckKimiConfig(settings).Success? then send(KimiChat, config)
                   else Failure(ErrorString(ConfigRequired))
  {
    match ParseProviderType(providerName)
    case None => Failure(ErrorString("Unknown provider type: " + providerName))
    case Some(Gemini) => send(GeminiProvider, config)
    case Some(Kimi) =>
      match CheckKimiConfig(settings)
      case Failure(message) => Failure(ErrorString(message))
      case Success(_) => send(KimiChat, config)
  }

  /** Only a registered name ever reaches a network call. */
  lemma UnknownNeverSends<P>(providerName: string, settings: seq<Field>, config: P,
                             send: (Backend, P) -> Result<string, string>)
    requires providerName !in ProviderNames()
    ensures CreateProvider(providerName, settings, config, send).Failure?
    ensures CreateProvider(providerName, settings, config, send).error
            == "Error: Unknown provider type: " + providerName
  {
  }
}
