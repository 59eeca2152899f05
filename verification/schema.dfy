/**
 * The settings schema: the shape a `settings.json` document must have,
 * as a parser from a JSON value to typed settings or a list of issues,
 * with zod's semantics for `optional`, `default` (the default value is
 * itself run through the inner schema), `max`, `enum`, `record` and
 * `url` (the URL check `isUrl` is a parameter).
 */
module SettingsSchema {
  import opened Wrappers
  import opened JsonValue
  import opened Providers

  const KimiDefaultEndpoint := "https://kimi.moonshot.cn/api"
  const GenerateMax := 10
  const MaxLengthMax := 100

  datatype KimiSettings = KimiSettings(endpoint: string, apiKey: string)
  datatype GeminiSettings = GeminiSettings(endpoint: Option<string>, apiKey: string)
  datatype ProviderSettings = ProviderSettings(kimi: Option<KimiSettings>, gemini: Option<GeminiSettings>)
  datatype CommitType = Plain | Conventional
  datatype Commitment = Commitment(generate: Option<int>, maxlength: Option<int>, commitType: CommitType)
  datatype Header = Header(name: string, value: string)
  datatype Settings = Settings(
    providers: ProviderSettings,
    metadata: Option<seq<Field>>,
    payload: Option<seq<Header>>,
    commitment: Commitment,
    proxy: Option<string>,
    provider: ProviderType)

  datatype IssueKind = WrongType | Missing | NotUrl | TooBig | NotInEnum
  /** One zod issue: where in the document, and what is wrong there. */
  datatype Issue = Issue(path: seq<string>, kind: IssueKind)

  type Parsed<T> = Result<T, seq<Issue>>

  /** The issues of a parse, none when it succeeded. */
  function Issues<T>(r: Parsed<T>): seq<Issue> {
    if r.Failure? then r.error else []
  }

  /** What every successfully parsed settings value satisfies. */
  predicate Valid(s: Settings, isUrl: string -> bool) {
    && (s.providers.kimi.Some? ==> isUrl(s.providers.kimi.value.endpoint))
    && (s.providers.gemini.Some? && s.providers.gemini.value.endpoint.Some? ==>
          isUrl(s.providers.gemini.value.endpoint.value))
    && (s.commitment.generate.Some? ==> s.commitment.generate.value <= GenerateMax)
    && (s.commitment.maxlength.Some? ==> s.commitment.maxlength.value <= MaxLengthMax)
    && (s.proxy.Some? ==> isUrl(s.proxy.value))
  }

  /** `z.string()` on a required field. */
  function ParseString(v: Option<Json>, path: seq<string>): (r: Parsed<string>)
    ensures r.Success? <==> v.Some? && v.value.JStr?
    ensures r.Success? ==> v == Some(JStr(r.value))
    ensures r.Failure? ==> r.error == [Issue(path, if v.None? then Missing else WrongType)]
  {
    match v
    case None => Failure([Issue(path, Missing)])
    case Some(JStr(s)) => Success(s)
    case Some(_) => Failure([Issue(path, WrongType)])
  }

  /** `z.string().url()` on a present value. */
  function ParseUrl(v: Json, path: seq<string>, isUrl: string -> bool): (r: Parsed<string>)
    ensures r.Success? <==> v.JStr? && isUrl(v.s)
    ensures r.Success? ==> v == JStr(r.value)
    ensures r.Failure? ==> |r.error| == 1 && r.error[0].path == path
  {
    match v
    case JStr(s) => if isUrl(s) then Success(s) else Failure([Issue(path, NotUrl)])
    case _ => Failure([Issue(path, WrongType)])
  }

  /** `z.string().url().optional()`. */
  function ParseOptionalUrl(v: Option<Json>, path: seq<string>, isUrl: string -> bool): (r: Parsed<Option<string>>)
    ensures v.None? ==> r == Success(None)
    ensures v.Some? ==> (r.Success? <==> v.value.JStr? && isUrl(v.value.s))
    ensures r.Success? && r.value.Some? ==> v == Some(JStr(r.value.value)) && isUrl(r.value.value)
    ensures r.Failure? ==> |r.error| > 0
  {
    match v
    case None => Success(None)
    case Some(j) =>
      var url := ParseUrl(j, path, isUrl);
      if url.Success? then Success(Some(url.value)) else Failure(url.error)
  }

  /** `z.number().max(max).optional()`: an upper bound only. */
  function ParseOptionalMax(v: Option<Json>, path: seq<string>, max: int): (r: Parsed<Option<int>>)
    ensures r.Success? <==> v.None? || (v.value.JNum? && v.value.n <= max)
    ensures r.Success? ==> (if v.None? then r.value.None? else r.value == Some(v.value.n))
    ensures r.Failure? ==> |r.error| == 1 && r.error[0].path == path
  {
    match v
    case None => Success(None)
    case Some(JNum(n)) => if n <= max then Success(Some(n)) else Failure([Issue(path, TooBig)])
    case Some(_) => Failure([Issue(path, WrongType)])
  }

  /** `z.enum(['', 'conventional']).optional().default('')`. */
  function ParseCommitType(v: Option<Json>, path: seq<string>): (r: Parsed<CommitType>)
    ensures r.Success? <==> v.None? || v == Some(JStr("")) || v == Some(JStr("conventional"))
    ensures r == Success(Conventional) <==> v == Some(JStr("conventional"))
    ensures r.Failure? ==> |r.error| == 1
  {
    var v': Option<Json> := if v.None? then Some(JStr("")) else v;
    match v'
    case Some(JStr(s)) =>
      if s == "" then Success(Plain)
      else if s == "conventional" then Success(Conventional)
      else Failure([Issue(path, NotInEnum)])
    case _ => Failure([Issue(path, WrongType)])
  }

  /** The `providers.kimi` entry; its endpoint defaults to the public Kimi address. */
  function ParseKimi(v: Option<Json>, isUrl: string -> bool): (r: Parsed<Option<KimiSettings>>)
    ensures v.None? ==> r == Success(None)
    ensures r.Success? && r.value.Some? ==> isUrl(r.value.value.endpoint)
    ensures r.Success? && v.Some? ==>
              r.value.Some? && v.value.JObj? && Lookup(v.value.fields, "apiKey") == Some(JStr(r.value.value.apiKey))
    ensures r.Failure? ==> |r.error| > 0
  {
    var path := ["providers", "kimi"];
    match v
    case None => Success(None)
    case Some(JObj(fs)) =>
      var endpoint := ParseUrl(if Lookup(fs, "endpoint").Some? then Lookup(fs, "endpoint").value else JStr(KimiDefaultEndpoint), path + ["endpoint"], isUrl);
      var apiKey := ParseString(Lookup(fs, "apiKey"), path + ["apiKey"]);
      if endpoint.Success? && apiKey.Success? then Success(Some(KimiSettings(endpoint.value, apiKey.value)))
      else Failure(Issues(endpoint) + Issues(apiKey))
    case Some(_) => Failure([Issue(path, WrongType)])
  }

  /** The `providers.gemini` entry; its endpoint is optional. */
  function ParseGemini(v: Option<Json>, isUrl: string -> bool): (r: Parsed<Option<GeminiSettings>>)
    ensures v.None? ==> r == Success(None)
    ensures r.Success? && r.value.Some? && r.value.value.endpoint.Some? ==> isUrl(r.value.value.endpoint.value)
    ensures r.Success? && v.Some? ==>
              r.value.Some? && v.value.JObj? && Lookup(v.value.fields, "apiKey") == Some(JStr(r.value.value.apiKey))
    ensures r.Failure? ==> |r.error| > 0
  {
    var path := ["providers", "gemini"];
    match v
    case None => Success(None)
    case Some(JObj(fs)) =>
      var endpoint := ParseOptionalUrl(Lookup(fs, "endpoint"), path + ["endpoint"], isUrl);
      var apiKey := ParseString(Lookup(fs, "apiKey"), path + ["apiKey"]);
      if endpoint.Success? && apiKey.Success? then Success(Some(GeminiSettings(endpoint.value, apiKey.value)))
      else Failure(Issues(endpoint) + Issues(apiKey))
    case Some(_) => Failure([Issue(path, WrongType)])
  }

  /** The `providers` object, `{}` when absent. */
  function ParseProviders(v: Option<Json>, isUrl: string -> bool): (r: Parsed<ProviderSettings>)
    ensures v.None? ==> r == Success(ProviderSettings(None, None))
    ensures r.Failure? ==> |r.error| > 0
  {
    var v': Option<Json> := if v.None? then Some(JObj([])) else v;
    match v'
    case Some(JObj(fs)) =>
      var kimi := ParseKimi(Lookup(fs, "kimi"), isUrl);
      var gemini := ParseGemini(Lookup(fs, "gemini"), isUrl);
      if kimi.Success? && gemini.Success? then Success(ProviderSettings(kimi.value, gemini.value))
      else Failure(Issues(kimi) + Issues(gemini))
    case _ => Failure([Issue(["providers"], WrongType)])
  }

  /** `z.record(z.any()).optional()`: any object, kept as it is. */
  function ParseMetadata(v: Option<Json>): (r: Parsed<Option<seq<Field>>>)
    ensures r.Success? <==> v.None? || v.value.JObj?
    ensures r.Success? && v.Some? ==> r.value == Some(v.value.fields)
    ensures r.Failure? ==> |r.error| > 0
  {
    match v
    case None => Success(None)
    case Some(JObj(fs)) => Success(Some(fs))
    case Some(_) => Failure([Issue(["metadata"], WrongType)])
  }

  /** The entries of a `z.record(z.string())`: every value must be a string; each bad one is an issue at its key. */
  function ParseHeaders(fs: seq<Field>): (r: Parsed<seq<Header>>)
    ensures r.Success? <==> forall i :: 0 <= i < |fs| ==> fs[i].value.JStr?
    ensures r.Success? ==> |r.value| == |fs|
    ensures r.Success? ==> forall i :: 0 <= i < |fs| ==> r.value[i] == Header(fs[i].key, fs[i].value.s)
    ensures r.Failure? ==> 0 < |r.error| <= |fs|
    ensures r.Failure? ==> forall i :: 0 <= i < |r.error| ==> |r.error[i].path| == 2 && r.error[i].path[0] == "payload"
  {
    if |fs| == 0 then Success([])
    else
      var head: Parsed<Header> :=
        if fs[0].value.JStr? then Success(Header(fs[0].key, fs[0].value.s))
        else Failure([Issue(["payload", fs[0].key], WrongType)]);
      var rest := ParseHeaders(fs[1..]);
      if head.Success? && rest.Success? then Success([head.value] + rest.value)
      else Failure(Issues(head) + Issues(rest))
  }

  /** `z.record(z.string()).optional()`. */
  function ParsePayload(v: Option<Json>): (r: Parsed<Option<seq<Header>>>)
    ensures v.None? ==> r == Success(None)
    ensures r.Failure? ==> |r.error| > 0
  {
    match v
    case None => Success(None)
    case Some(JObj(fs)) =>
      var headers := ParseHeaders(fs);
      if headers.Success? then Success(Some(headers.value)) else Failure(headers.error)
    case Some(_) => Failure([Issue(["payload"], WrongType)])
  }

  /** The default of `commitment`: one message of at most 60 characters, plain style. */
  const DefaultCommitmentDoc: Json :=
    JObj([Field("generate", JNum(1)), Field("maxlength", JNum(60)), Field("type", JStr(""))])

  /** The fields of a `commitment` object, each checked on its own. */
  function CommitmentFrom(generate: Option<Json>, maxlength: Option<Json>, commitType: Option<Json>): (r: Parsed<Commitment>)
    ensures r.Success? ==> (r.value.generate.Some? ==> r.value.generate.value <= GenerateMax)
                           && (r.value.maxlength.Some? ==> r.value.maxlength.value <= MaxLengthMax)
    ensures r.Failure? ==> |r.error| > 0
  {
    var g := ParseOptionalMax(generate, ["commitment", "generate"], GenerateMax);
    var m := ParseOptionalMax(maxlength, ["commitment", "maxlength"], MaxLengthMax);
    var t := ParseCommitType(commitType, ["commitment", "type"]);
    if g.Success? && m.Success? && t.Success? then Success(Commitment(g.value, m.value, t.value))
    else Failure(Issues(g) + Issues(m) + Issues(t))
  }

  /** The `commitment` object, replaced by its default when absent. */
  function ParseCommitment(v: Option<Json>): (r: Parsed<Commitment>)
    ensures r.Success? ==> (r.value.generate.Some? ==> r.value.generate.value <= GenerateMax)
                           && (r.value.maxlength.Some? ==> r.value.maxlength.value <= MaxLengthMax)
    ensures r.Failure? ==> |r.error| > 0
  {
    var v': Option<Json> := if v.None? then Some(DefaultCommitmentDoc) else v;
    match v'
    case Some(JObj(fs)) => CommitmentFrom(Lookup(fs, "generate"), Lookup(fs, "maxlength"), Lookup(fs, "type"))
    case _ => Failure([Issue(["commitment"], WrongType)])
  }

  /** The `provider` enum; it must name a registered provider and defaults to `kimi`. */
  function ParseProvider(v: Option<Json>): (r: Parsed<ProviderType>)
    ensures v.None? ==> r == Success(Kimi)
    ensures v.Some? ==> (r.Success? <==> v.value.JStr? && ParseProviderType(v.value.s).Some?)
    ensures v.Some? && r.Success? ==> v == Some(JStr(Name(r.value)))
    ensures r.Failure? ==> |r.error| == 1
  {
    var v': Option<Json> := if v.None? then Some(JStr("kimi")) else v;
    match v'
    case Some(JStr(s)) =>
      if s == "kimi" then Success(Kimi)
      else if s == "gemini" then Success(Gemini)
      else Failure([Issue(["provider"], NotInEnum)])
    case _ => Failure([Issue(["provider"], WrongType)])
  }

  /** The six top-level fields combined: the settings when all parsed, else all their issues in schema order. */
  function SettingsFrom(providers: Parsed<ProviderSettings>, metadata: Parsed<Option<seq<Field>>>,
                        payload: Parsed<Option<seq<Header>>>, commitment: Parsed<Commitment>,
                        proxy: Parsed<Option<string>>, provider: Parsed<ProviderType>): (r: Parsed<Settings>)
    ensures r.Success? <==> providers.Success? && metadata.Success? && payload.Success?
                            && commitment.Success? && proxy.Success? && provider.Success?
    ensures r.Failure? ==> r.error == Issues(providers) + Issues(metadata) + Issues(payload)
                                      + Issues(commitment) + Issues(proxy) + Issues(provider)
  {
    if providers.Success? && metadata.Success? && payload.Success?
       && commitment.Success? && proxy.Success? && provider.Success? then
      Success(Settings(providers.value, metadata.value, payload.value, commitment.value, proxy.value, provider.value))
    else
      Failure(Issues(providers) + Issues(metadata) + Issues(payload)
              + Issues(commitment) + Issues(proxy) + Issues(provider))
  }

  /** `settingsSchema.safeParse`: the issues of all fields, in schema order. */
  function ParseSettings(raw: Json, isUrl: string -> bool): (r: Parsed<Settings>)
    ensures r.Success? ==> Valid(r.value, isUrl)
    ensures r.Failure? ==> |r.error| > 0
  {
    match raw
    case JObj(fs) =>
      SettingsFrom(ParseProviders(Lookup(fs, "providers"), isUrl),
                   ParseMetadata(Lookup(fs, "metadata")),
                   ParsePayload(Lookup(fs, "payload")),
                   ParseCommitment(Lookup(fs, "commitment")),
                   ParseOptionalUrl(Lookup(fs, "proxy"), ["proxy"], isUrl),
                   ParseProvider(Lookup(fs, "provider")))
    case _ => Failure([Issue([], WrongType)])
  }

  // Serialisation of parsed settings back to a document.

  function EncodeKimi(k: KimiSettings): Json {
    JObj([Field("endpoint", JStr(k.endpoint)), Field("apiKey", JStr(k.apiKey))])
  }

  function EncodeGemini(g: GeminiSettings): Json {
    JObj(Present([("endpoint", if g.endpoint.Some? then Some(JStr(g.endpoint.value)) else None),
                  ("apiKey", Some(JStr(g.apiKey)))]))
  }

  function EncodeProviders(p: ProviderSettings): Json {
    JObj(Present([("kimi", if p.kimi.Some? then Some(EncodeKimi(p.kimi.value)) else None),
                  ("gemini", if p.gemini.Some? then Some(EncodeGemini(p.gemini.value)) else None)]))
  }

  function EncodeHeaders(hs: seq<Header>): (r: seq<Field>)
    ensures |r| == |hs|
  {
    if |hs| == 0 then [] else [Field(hs[0].name, JStr(hs[0].value))] + EncodeHeaders(hs[1..])
  }

  function EncodeCommitType(t: CommitType): string {
    if t == Plain then "" else "conventional"
  }

  function EncodeCommitment(c: Commitment): Json {
    JObj(Present([("generate", if c.generate.Some? then Some(JNum(c.generate.value)) else None),
                  ("maxlength", if c.maxlength.Some? then Some(JNum(c.maxlength.value)) else None),
                  ("type", Some(JStr(EncodeCommitType(c.commitType))))]))
  }

  /** The document `JSON.stringify` would write for `s`; absent optional fields are omitted. */
  function EncodeSettings(s: Settings): Json {
    JObj(Present(SettingsEntries(s)))
  }

  function SettingsEntries(s: Settings): seq<(string, Option<Json>)> {
    [("providers", Some(EncodeProviders(s.providers))),
     ("metadata", if s.metadata.Some? then Some(JObj(s.metadata.value)) else None),
     ("payload", if s.payload.Some? then Some(JObj(EncodeHeaders(s.payload.value))) else None),
     ("commitment", Some(EncodeCommitment(s.commitment))),
     ("proxy", if s.proxy.Some? then Some(JStr(s.proxy.value)) else None),
     ("provider", Some(JStr(Name(s.provider))))]
  }

  lemma {:induction false} HeadersRoundTrip(hs: seq<Header>)
    ensures ParseHeaders(EncodeHeaders(hs)) == Success(hs)
  {
    if |hs| > 0 {
      HeadersRoundTrip(hs[1..]);
      assert EncodeHeaders(hs)[1..] == EncodeHeaders(hs[1..]);
      assert [hs[0]] + hs[1..] == hs;
    }
  }

  lemma KimiRoundTrip(k: KimiSettings, isUrl: string -> bool)
    requires isUrl(k.endpoint)
    ensures ParseKimi(Some(EncodeKimi(k)), isUrl) == Success(Some(k))
  {
    var fs := [Field("endpoint", JStr(k.endpoint)), Field("apiKey", JStr(k.apiKey))];
    assert Lookup(fs, "endpoint") == Some(JStr(k.endpoint));
    assert Lookup(fs, "apiKey") == Some(JStr(k.apiKey));
  }

  lemma GeminiRoundTrip(g: GeminiSettings, isUrl: string -> bool)
    requires g.endpoint.Some? ==> isUrl(g.endpoint.value)
    ensures ParseGemini(Some(EncodeGemini(g)), isUrl) == Success(Some(g))
  {
    var entries := [("endpoint", if g.endpoint.Some? then Some(JStr(g.endpoint.value)) else None),
                    ("apiKey", Some(JStr(g.apiKey)))];
    var fs := Present(entries);
    LookupPresent(entries, 0);
    LookupPresent(entries, 1);
    assert ParseOptionalUrl(Lookup(fs, "endpoint"), ["providers", "gemini", "endpoint"], isUrl) == Success(g.endpoint);
    assert ParseString(Lookup(fs, "apiKey"), ["providers", "gemini", "apiKey"]) == Success(g.apiKey);
  }

  lemma ProvidersRoundTrip(p: ProviderSettings, isUrl: string -> bool)
    requires p.kimi.Some? ==> isUrl(p.kimi.value.endpoint)
    requires p.gemini.Some? && p.gemini.value.endpoint.Some? ==> isUrl(p.gemini.value.endpoint.value)
    ensures ParseProviders(Some(EncodeProviders(p)), isUrl) == Success(p)
  {
    var entries := [("kimi", if p.kimi.Some? then Some(EncodeKimi(p.kimi.value)) else None),
                    ("gemini", if p.gemini.Some? then Some(EncodeGemini(p.gemini.value)) else None)];
    var fs := Present(entries);
    LookupPresent(entries, 0);
    LookupPresent(entries, 1);
    if p.kimi.Some? {
      KimiRoundTrip(p.kimi.value, isUrl);
    }
    if p.gemini.Some? {
      GeminiRoundTrip(p.gemini.value, isUrl);
    }
    assert ParseKimi(Lookup(fs, "kimi"), isUrl) == Success(p.kimi);
    assert ParseGemini(Lookup(fs, "gemini"), isUrl) == Success(p.gemini);
  }

  lemma CommitmentLookups(c: Commitment)
    ensures var fs := EncodeCommitment(c).fields;
            && Lookup(fs, "generate") == (if c.generate.Some? then Some(JNum(c.generate.value)) else None)
            && Lookup(fs, "maxlength") == (if c.maxlength.Some? then Some(JNum(c.maxlength.value)) else None)
            && Lookup(fs, "type") == Some(JStr(EncodeCommitType(c.commitType)))
  {
    var entries := [("generate", if c.generate.Some? then Some(JNum(c.generate.value)) else None),
                    ("maxlength", if c.maxlength.Some? then Some(JNum(c.maxlength.value)) else None),
                    ("type", Some(JStr(EncodeCommitType(c.commitType))))];
    LookupPresent(entries, 0);
    LookupPresent(entries, 1);
    LookupPresent(entries, 2);
  }

  lemma CommitmentRoundTrip(c: Commitment)
    requires c.generate.Some? ==> c.generate.value <= GenerateMax
    requires c.maxlength.Some? ==> c.maxlength.value <= MaxLengthMax
    ensures ParseCommitment(Some(EncodeCommitment(c))) == Success(c)
  {
    CommitmentLookups(c);
    var fs := EncodeCommitment(c).fields;
    assert ParseCommitType(Lookup(fs, "type"), ["commitment", "type"]) == Success(c.commitType);
  }

  lemma SettingsEntriesDistinct(s: Settings)
    ensures DistinctEntryKeys(SettingsEntries(s))
  {
  }

  lemma SettingsLookups(s: Settings)
    ensures var fs := EncodeSettings(s).fields;
            && Lookup(fs, "providers") == Some(EncodeProviders(s.providers))
            && Lookup(fs, "metadata") == (if s.metadata.Some? then Some(JObj(s.metadata.value)) else None)
            && Lookup(fs, "payload") == (if s.payload.Some? then Some(JObj(EncodeHeaders(s.payload.value))) else None)
            && Lookup(fs, "commitment") == Some(EncodeCommitment(s.commitment))
            && Lookup(fs, "proxy") == (if s.proxy.Some? then Some(JStr(s.proxy.value)) else None)
            && Lookup(fs, "provider") == Some(JStr(Name(s.provider)))
  {
    var entries := SettingsEntries(s);
    SettingsEntriesDistinct(s);
    LookupPresent(entries, 0);
    LookupPresent(entries, 1);
    LookupPresent(entries, 2);
    LookupPresent(entries, 3);
    LookupPresent(entries, 4);
    LookupPresent(entries, 5);
  }

  lemma PayloadRoundTrip(payload: Option<seq<Header>>)
    ensures ParsePayload(if payload.Some? then Some(JObj(EncodeHeaders(payload.value))) else None) == Success(payload)
  {
    if payload.Some? {
      HeadersRoundTrip(payload.value);
    }
  }

  lemma ProviderFieldRoundTrip(p: ProviderType)
    ensures ParseProvider(Some(JStr(Name(p)))) == Success(p)
  {
  }

  /** Valid settings survive serialisation: parsing the written document gives them back. */
  lemma SettingsRoundTrip(s: Settings, isUrl: string -> bool)
    requires Valid(s, isUrl)
    ensures ParseSettings(EncodeSettings(s), isUrl) == Success(s)
  {
    var fs := EncodeSettings(s).fields;
    SettingsLookups(s);
    ProvidersRoundTrip(s.providers, isUrl);
    PayloadRoundTrip(s.payload);
    CommitmentRoundTrip(s.commitment);
    ProviderFieldRoundTrip(s.provider);
    assert ParseSettings(EncodeSettings(s), isUrl)
        == SettingsFrom(Success(s.providers), ParseMetadata(Lookup(fs, "metadata")), Success(s.payload),
                        Success(s.commitment), ParseOptionalUrl(Lookup(fs, "proxy"), ["proxy"], isUrl),
                        Success(s.provider));
  }

  /** Parsing normalises: the parsed value, written out and parsed again, is unchanged. */
  lemma ParseIsIdempotent(raw: Json, isUrl: string -> bool)
    requires ParseSettings(raw, isUrl).Success?
    ensures ParseSettings(EncodeSettings(ParseSettings(raw, isUrl).value), isUrl) == ParseSettings(raw, isUrl)
  {
    SettingsRoundTrip(ParseSettings(raw, isUrl).value, isUrl);
  }

  /** The settings `getDefaults(settingsSchema)` yields: Kimi, no providers, the default commitment. */
  function GetDefaults(): (s: Settings)
    ensures forall isUrl :: Valid(s, isUrl)
  {
    Settings(ProviderSettings(None, None), None, None, Commitment(Some(1), Some(60), Plain), None, Kimi)
  }

  /** `getDefaults` is `settingsSchema.parse({})`: parsing an empty document gives the defaults, whatever the URL check. */
  lemma DefaultsParseEmpty(isUrl: string -> bool)
    ensures ParseSettings(JObj([]), isUrl) == Success(GetDefaults())
  {
    CommitmentDefault();
  }

  /** An absent `commitment` is its default: one message of at most 60 characters, plain style. */
  lemma CommitmentDefault()
    ensures ParseCommitment(None) == Success(Commitment(Some(1), Some(60), Plain))
  {
    var fs := DefaultCommitmentDoc.fields;
    assert Lookup(fs, "generate") == Some(JNum(1));
    assert Lookup(fs, "maxlength") == Some(JNum(60));
    assert Lookup(fs, "type") == Some(JStr(""));
    assert ParseCommitType(Some(JStr("")), ["commitment", "type"]) == Success(Plain);
  }

  /** A `commitment` with only numbers is accepted exactly when both are within their upper bounds; there is no lower bound. */
  lemma CommitmentUpperBoundsOnly(generate: int, maxlength: int)
    ensures var r := ParseCommitment(Some(JObj([Field("generate", JNum(generate)), Field("maxlength", JNum(maxlength))])));
            (r.Success? <==> generate <= GenerateMax && maxlength <= MaxLengthMax)
            && (r.Success? ==> r.value == Commitment(Some(generate), Some(maxlength), Plain))
  {
    var fs := [Field("generate", JNum(generate)), Field("maxlength", JNum(maxlength))];
    assert fs == [fs[0]] + [fs[1]];
    LookupCons(fs[0], [fs[1]], "type");
    LookupCons(fs[1], [], "type");
    assert Lookup(fs, "generate") == Some(JNum(generate));
    assert Lookup(fs, "maxlength") == Some(JNum(maxlength));
    assert Lookup(fs, "type") == None;
    assert ParseCommitType(None, ["commitment", "type"]) == Success(Plain);
  }

  /** A Kimi entry with only a key gets the default endpoint, provided the default passes the URL check. */
  lemma KimiEndpointDefault(apiKey: string, isUrl: string -> bool)
    ensures var r := ParseKimi(Some(JObj([Field("apiKey", JStr(apiKey))])), isUrl);
            (r.Success? <==> isUrl(KimiDefaultEndpoint))
            && (r.Success? ==> r.value == Some(KimiSettings(KimiDefaultEndpoint, apiKey)))
  {
    var fs := [Field("apiKey", JStr(apiKey))];
    assert Lookup(fs, "endpoint") == None;
    assert Lookup(fs, "apiKey") == Some(JStr(apiKey));
  }

  /** A document that names no provider selects Kimi. */
  lemma ProviderDefaultsToKimi(fields: seq<Field>, isUrl: string -> bool)
    requires "provider" !in KeysOf(fields)
    requires ParseSettings(JObj(fields), isUrl).Success?
    ensures ParseSettings(JObj(fields), isUrl).value.provider == Kimi
  {
    LookupFound(fields, "provider");
    assert ParseProvider(Lookup(fields, "provider")) == Success(Kimi);
  }

  /** The outcome of `validateSettings`: pass, or one report line per issue and exit status 1. */
  datatype Validation = Passed | Rejected(deepFields: seq<Option<string>>, exitCode: int)

  /** The field a report line names: the last path element of an issue nested deeper than the top level. */
  function DeepField(issue: Issue): Option<string> {
    if |issue.path| > 1 then Some(issue.path[|issue.path| - 1]) else None
  }

  function DeepFields(issues: seq<Issue>): (r: seq<Option<string>>)
    ensures |r| == |issues|
    ensures forall i :: 0 <= i < |issues| ==> r[i] == DeepField(issues[i])
  {
    if |issues| == 0 then [] else [DeepField(issues[0])] + DeepFields(issues[1..])
  }

  /** `validateSettings`. */
  function ValidateSettings(raw: Json, isUrl: string -> bool): (r: Validation)
    ensures r.Passed? <==> ParseSettings(raw, isUrl).Success?
    ensures r.Rejected? ==> r.exitCode == 1 && 0 < |r.deepFields| == |ParseSettings(raw, isUrl).error|
  {
    match ParseSettings(raw, isUrl)
    case Success(_) => Passed
    case Failure(issues) => Rejected(DeepFields(issues), 1)
  }

  /** Every document the program writes from valid settings passes validation. */
  lemma ValidateAcceptsEncoded(s: Settings, isUrl: string -> bool)
    requires Valid(s, isUrl)
    ensures ValidateSettings(EncodeSettings(s), isUrl) == Passed
  {
    SettingsRoundTrip(s, isUrl);
  }

  /** A Kimi entry without a key is reported under the name `apiKey`. */
  lemma MissingApiKeyIsNamed(isUrl: string -> bool)
    requires isUrl(KimiDefaultEndpoint)
    ensures ValidateSettings(JObj([Field("providers", JObj([Field("kimi", JObj([]))]))]), isUrl)
            == Rejected([Some("apiKey")], 1)
  {
    var fs := [Field("providers", JObj([Field("kimi", JObj([]))]))];
    var issue := Issue(["providers", "kimi", "apiKey"], Missing);
    assert ["providers", "kimi"] + ["apiKey"] == issue.path;
    var endpoint := ParseUrl(JStr(KimiDefaultEndpoint), ["providers", "kimi"] + ["endpoint"], isUrl);
    var apiKey := ParseString(Lookup([], "apiKey"), ["providers", "kimi"] + ["apiKey"]);
    assert endpoint.Success?;
    assert apiKey == Failure([issue]);
    assert Issues(endpoint) + Issues(apiKey) == [issue];
    assert ParseKimi(Some(JObj([])), isUrl) == Failure([issue]);
    assert ParseGemini(None, isUrl) == Success(None);
    var inner := [Field("kimi", JObj([]))];
    assert inner == [inner[0]] + [];
    LookupCons(inner[0], [], "kimi");
    LookupCons(inner[0], [], "gemini");
    var kimi := ParseKimi(Lookup(inner, "kimi"), isUrl);
    var gemini := ParseGemini(Lookup(inner, "gemini"), isUrl);
    assert kimi == Failure([issue]);
    assert gemini == Success(None);
    assert Issues(kimi) + Issues(gemini) == [issue];
    assert Lookup(fs, "providers") == Some(JObj(inner));
    assert ParseProviders(Lookup(fs, "providers"), isUrl) == Failure([issue]);
    assert Lookup(fs, "metadata") == None;
    assert Lookup(fs, "payload") == None;
    assert Lookup(fs, "commitment") == None;
    assert Lookup(fs, "proxy") == None;
    assert Lookup(fs, "provider") == None;
    CommitmentDefault();
    assert ParseSettings(JObj(fs), isUrl) == Failure([issue]);
    assert DeepFields([issue]) == [Some("apiKey")];
  }

  /** An unknown provider is a top-level issue, so its report line names no field. */
  lemma UnknownProviderIsUnnamed(name: string, isUrl: string -> bool)
    requires name !in ProviderNames()
    ensures ValidateSettings(JObj([Field("provider", JStr(name))]), isUrl) == Rejected([None], 1)
  {
    var fs := [Field("provider", JStr(name))];
    var issue := Issue(["provider"], NotInEnum);
    assert fs == [fs[0]] + [];
    LookupCons(fs[0], [], "provider");
    LookupCons(fs[0], [], "providers");
    LookupCons(fs[0], [], "metadata");
    LookupCons(fs[0], [], "payload");
    LookupCons(fs[0], [], "commitment");
    LookupCons(fs[0], [], "proxy");
    assert name != "kimi" && name != "gemini";
    assert ParseProvider(Some(JStr(name))) == Failure([issue]);
    CommitmentDefault();
    var providers := ParseProviders(None, isUrl);
    assert providers.Success?;
    assert ParseSettings(JObj(fs), isUrl)
        == SettingsFrom(providers, Success(None), Success(None), ParseCommitment(None),
                        Success(None), Failure([issue]));
    assert DeepFields([issue]) == [None];
  }
}
