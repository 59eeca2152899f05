/**
 * The string and event logic of the Kimi provider: the configuration guard
 * of `createKimiChat`, the server-sent-event line parser, and the
 * concatenation of completion texts.
 */
module KimiProvider {
  import opened Wrappers
  import opened Text
  import opened JsonValue

  const ConfigRequired := "Kimi API configuration is required. Please run \"ai --init\" to configure."
  const ParseFailure := "Failed to parse endpoint response as JSON"

  /** `settings.providers?.<provider>?.<key>`. */
  function ProviderSetting(settings: seq<Field>, provider: string, key: string): Option<Json> {
    Member(Member(Lookup(settings, "providers"), provider), key)
  }

  /** The guard at the top of `createKimiChat`: both the key and the endpoint must be truthy. */
  function CheckKimiConfig(settings: seq<Field>): (r: Result<(Json, Json), string>)
    ensures r.Success? <==> Truthy(ProviderSetting(settings, "kimi", "apiKey")) && Truthy(ProviderSetting(settings, "kimi", "endpoint"))
    ensures r.Success? ==> Some(r.value.0) == ProviderSetting(settings, "kimi", "endpoint")
                           && Some(r.value.1) == ProviderSetting(settings, "kimi", "apiKey")
    ensures r.Failure? ==> r.error == ConfigRequired
  {
    var endpoint := ProviderSetting(settings, "kimi", "endpoint");
    var apiKey := ProviderSetting(settings, "kimi", "apiKey");
    if !Truthy(apiKey) || !Truthy(endpoint) then Failure(ConfigRequired)
    else Success((endpoint.value, apiKey.value))
  }

  const DataPrefix := "data:"
  const DataMarker := "data: "

  /** `line.replace('data: ', '')`: the first occurrence of `data: ` is removed, wherever it is. */
  function EventPayload(line: string): string {
    ReplaceFirst(line, DataMarker, "")
  }

  /** What one raw line contributes: its trimmed payload when the trimmed line starts with `data:`. */
  function LineEvents(line: string): seq<string> {
    var t := Trim(line);
    if StartsWith(t, DataPrefix) then [EventPayload(t)] else []
  }

  /** Each element's contribution, concatenated in element order. */
  function FlatMap<A, B>(f: A -> seq<B>, xs: seq<A>): (r: seq<B>)
    ensures (forall i :: 0 <= i < |xs| ==> |f(xs[i])| <= 1) ==> |r| <= |xs|
  {
    if |xs| == 0 then [] else f(xs[0]) + FlatMap(f, xs[1..])
  }

  lemma {:induction false} FlatMapAppend<A, B>(f: A -> seq<B>, a: seq<A>, b: seq<A>)
    ensures FlatMap(f, a + b) == FlatMap(f, a) + FlatMap(f, b)
  {
    if |a| == 0 {
      assert a + b == b;
    } else {
      assert (a + b)[0] == a[0];
      assert (a + b)[1..] == a[1..] + b;
      FlatMapAppend(f, a[1..], b);
    }
  }

  /** The `map(trim)`, `filter(startsWith('data:'))`, `map(replace)` chain over the split lines. */
  function EventsOf(lines: seq<string>): (r: seq<string>)
    ensures |r| <= |lines|
  {
    assert forall i :: 0 <= i < |lines| ==> |LineEvents(lines[i])| <= 1;
    FlatMap(LineEvents, lines)
  }

  /** `parseStreamData`: never more events than newline-separated pieces. */
  function ParseStreamData(raw: string): (r: seq<string>)
    ensures |r| <= Count(raw, '\n') + 1
  {
    EventsOf(Split(raw, '\n'))
  }

  /** Lines are handled independently and in order: parsing two chunks joined by a newline concatenates their events. */
  lemma ParseStreamDataAppend(a: string, b: string)
    ensures ParseStreamData(a + "\n" + b) == ParseStreamData(a) + ParseStreamData(b)
  {
    SplitAppend(a, '\n', b);
    FlatMapAppend(LineEvents, Split(a, '\n'), Split(b, '\n'));
  }

  /** A single line yields its payload when, once trimmed, it starts with `data:`, and nothing otherwise. */
  lemma ParseStreamDataLine(line: string)
    requires '\n' !in line
    ensures ParseStreamData(line) == LineEvents(line)
  {
    SplitNoSeparator(line, '\n');
  }

  lemma {:induction false} SplitNoSeparator(s: string, sep: char)
    requires sep !in s
    ensures Split(s, sep) == [s]
  {
    if |s| > 0 {
      assert sep !in s[1..];
      SplitNoSeparator(s[1..], sep);
      assert s == [s[0]] + s[1..];
    }
  }

  /** `data: X` becomes `X`. */
  lemma PayloadAfterMarker(x: string)
    ensures EventPayload(DataMarker + x) == x
  {
    ReplaceFirstAtStart(DataMarker, x, "");
  }

  /** A line with no `data: ` anywhere, such as `data:X`, is kept unchanged. */
  lemma PayloadWithoutMarker(line: string)
    requires forall j: nat :: !OccursAt(line, DataMarker, j)
    ensures EventPayload(line) == line
  {
    ReplaceFirstAbsent(line, DataMarker, "");
  }

  /** A stream event as the program reads it; an absent field reads as the empty string. */
  datatype KimiEvent = KimiEvent(event: string, text: string)

  /** What one parsed event adds to the content: the text of a non-empty `cmpl` event. */
  function EventText(e: KimiEvent): string {
    if e.event == "cmpl" && e.text != "" then e.text else ""
  }

  /** Every event string parses. */
  predicate AllParse(events: seq<string>, parse: string -> Option<KimiEvent>) {
    forall i :: 0 <= i < |events| ==> parse(events[i]).Some?
  }

  /** The completion texts of `events`, in order. */
  function CompletionText(events: seq<string>, parse: string -> Option<KimiEvent>): string
    requires AllParse(events, parse)
  {
    if |events| == 0 then ""
    else CompletionText(events[..|events| - 1], parse) + EventText(parse(events[|events| - 1]).value)
  }

  /**
   * `extractContentFromEvents`: the `text` of every `cmpl` event with a
   * non-empty text, concatenated in order; any event that cannot be read
   * aborts with the JSON parse error. `parse` stands for `safeJsonParse`
   * followed by reading `event` and `text`; `None` means the read throws.
   */
  method ExtractContentFromEvents(events: seq<string>, parse: string -> Option<KimiEvent>)
    returns (r: Result<string, string>)
    ensures r.Success? <==> AllParse(events, parse)
    ensures r.Success? ==> r.value == CompletionText(events, parse)
    ensures r.Failure? ==> r.error == ParseFailure
  {
    var content := "";
    var i := 0;
    while i < |events|
      invariant 0 <= i <= |events|
      invariant AllParse(events[..i], parse)
      invariant content == CompletionText(events[..i], parse)
    {
      var parsed := parse(events[i]);
      if parsed.None? {
        return Failure(ParseFailure);
      }
      assert events[..i + 1][..i] == events[..i];
      content := content + EventText(parsed.value);
      i := i + 1;
    }
    assert events[..i] == events;
    return Success(content);
  }
}
