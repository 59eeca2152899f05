/**
 * First-run initialisation: the prompt-until-`done` key/value collector and
 * the construction and saving of the first settings document.
 */
module InitSettings {
  import opened Wrappers
  import opened Text
  import opened JsonValue
  import opened FileSystem
  import opened SettingsSchema
  import opened SettingsConstants
  import opened SettingsStore
  import opened Providers
  import opened ICloudSync

  /**
   * `obj[key] = value` on a plain object with a string value. The key
   * `__proto__` reaches the prototype setter, which ignores a string, so
   * nothing is stored for it.
   */
  function Store(obj: seq<Field>, key: string, value: string): (r: seq<Field>)
    ensures key == "__proto__" ==> r == obj
    ensures key != "__proto__" ==> Lookup(r, key) == Some(JStr(value))
    ensures forall k :: k != key ==> Lookup(r, k) == Lookup(obj, k)
  {
    if key == "__proto__" then obj else Assign(obj, key, JStr(value))
  }

  /** The keys of `Store(obj, key, value)`: those of `obj`, plus `key` when it is new and stored. */
  lemma StoreKeys(obj: seq<Field>, key: string, value: string)
    ensures forall k :: k in KeysOf(Store(obj, key, value)) ==> k in KeysOf(obj) || (k == key && key != "__proto__")
  {
  }

  /** Whether an answer ends the collection: its lower-case form is `done`. */
  predicate IsDone(answer: string) {
    ToLower(answer) == "done"
  }

  /** The answers that stop the collection: `done` in any mix of cases, with nothing around it. */
  lemma DoneAnswers(answer: string)
    ensures IsDone(answer) <==>
      && |answer| == 4
      && answer[0] in {'d', 'D'} && answer[1] in {'o', 'O'}
      && answer[2] in {'n', 'N'} && answer[3] in {'e', 'E'}
  {
    if |answer| == 4 {
      var lo := ToLower(answer);
      assert forall i :: 0 <= i < 4 ==> lo[i] == LowerChar(answer[i]);
      assert lo == "done" <==> lo[0] == 'd' && lo[1] == 'o' && lo[2] == 'n' && lo[3] == 'e';
    }
  }

  /**
   * The collector as a function of the remaining answers: the object and
   * the answers left after `done`, or `None` when the answers run out
   * first and the prompt waits forever.
   */
  function Collect(answers: seq<string>, obj: seq<Field>): (r: Option<(seq<Field>, seq<string>)>)
    ensures r.Some? ==> |r.value.1| < |answers| && r.value.1 == answers[|answers| - |r.value.1|..]
    ensures r.Some? ==> IsDone(answers[|answers| - |r.value.1| - 1])
    ensures (forall i :: 0 <= i < |answers| ==> !IsDone(answers[i])) ==> r.None?
    decreases |answers|
  {
    if |answers| == 0 then None
    else if IsDone(answers[0]) then Some((obj, answers[1..]))
    else if |answers| == 1 then None
    else Collect(answers[2..], Store(obj, answers[0], answers[1]))
  }

  /** `askForCustomObject`: ask for a key; `done` in any case stops; otherwise ask for its value and store it. */
  method AskForCustomObject(w: World) returns (r: Run<seq<Field>>)
    ensures r.Returned? <==> Collect(w.answers, []).Some?
    ensures r.Returned? ==> (r.value, r.world.answers) == Collect(w.answers, []).value
    ensures r.Threw? == false
    ensures r.world == w.(answers := r.world.answers)
    ensures r.Waiting? ==> r.world.answers == []
  {
    var obj: seq<Field> := [];
    var answers := w.answers;
    while true
      invariant Collect(answers, obj) == Collect(w.answers, [])
      decreases |answers|
    {
      if |answers| == 0 {
        return Waiting(w.(answers := []));
      }
      var key := answers[0];
      answers := answers[1..];
      if IsDone(key) {
        return Returned(obj, w.(answers := answers));
      }
      if |answers| == 0 {
        return Waiting(w.(answers := []));
      }
      var value := answers[0];
      answers := answers[1..];
      obj := Store(obj, key, value);
    }
  }

  /** A key and the value typed after it. */
  datatype Entry = Entry(key: string, value: string)

  /** The answers that type `entries` in order: key, value, key, value, ... */
  function Script(entries: seq<Entry>): (r: seq<string>)
    ensures |r| == 2 * |entries|
  {
    if |entries| == 0 then [] else [entries[0].key, entries[0].value] + Script(entries[1..])
  }

  /** Storing the entries one after the other. */
  function StoreAll(obj: seq<Field>, entries: seq<Entry>): seq<Field>
    decreases |entries|
  {
    if |entries| == 0 then obj else StoreAll(Store(obj, entries[0].key, entries[0].value), entries[1..])
  }

  /** The value typed for `key` the last time it was entered. */
  function LastValue(entries: seq<Entry>, key: string): Option<string> {
    if |entries| == 0 then None
    else
      var later := LastValue(entries[1..], key);
      if later.Some? then later else if entries[0].key == key then Some(entries[0].value) else None
  }

  /** No entered key ends the collection early. */
  predicate NoDoneKey(entries: seq<Entry>) {
    forall i :: 0 <= i < |entries| ==> !IsDone(entries[i].key)
  }

  /** Entries followed by a `done` answer: exactly those entries are stored, and the answers after `done` remain. */
  lemma {:induction false} CollectScript(entries: seq<Entry>, stop: string, tail: seq<string>, obj: seq<Field>)
    requires NoDoneKey(entries) && IsDone(stop)
    ensures Collect(Script(entries) + [stop] + tail, obj) == Some((StoreAll(obj, entries), tail))
  {
    var answers := Script(entries) + [stop] + tail;
    if |entries| == 0 {
      assert answers == [stop] + tail;
    } else {
      assert answers[0] == entries[0].key && answers[1] == entries[0].value;
      assert answers[2..] == Script(entries[1..]) + [stop] + tail;
      CollectScript(entries[1..], stop, tail, Store(obj, entries[0].key, entries[0].value));
    }
  }

  /** Without a `done` answer the collector never finishes. */
  lemma {:induction false} CollectWithoutDoneWaits(entries: seq<Entry>, obj: seq<Field>)
    requires NoDoneKey(entries)
    ensures Collect(Script(entries), obj) == None
  {
    if |entries| > 0 {
      assert Script(entries)[2..] == Script(entries[1..]);
      CollectWithoutDoneWaits(entries[1..], Store(obj, entries[0].key, entries[0].value));
    }
  }

  /** Each stored key holds the value typed the last time it was entered; other keys are untouched; `__proto__` is never stored. */
  lemma {:induction false} StoreAllLookup(obj: seq<Field>, entries: seq<Entry>, key: string)
    ensures key == "__proto__" ==> Lookup(StoreAll(obj, entries), key) == Lookup(obj, key)
    ensures key != "__proto__" ==>
              Lookup(StoreAll(obj, entries), key)
              == if LastValue(entries, key).Some? then Some(JStr(LastValue(entries, key).value)) else Lookup(obj, key)
    decreases |entries|
  {
    if |entries| > 0 {
      StoreAllLookup(Store(obj, entries[0].key, entries[0].value), entries[1..], key);
    }
  }

  /** The stored keys are among the entered ones, never `__proto__`, and never a `done` answer. */
  lemma {:induction false} StoreAllKeys(entries: seq<Entry>, key: string)
    requires NoDoneKey(entries)
    requires key in KeysOf(StoreAll([], entries))
    ensures key != "__proto__" && !IsDone(key)
    ensures exists i :: 0 <= i < |entries| && entries[i].key == key
  {
    StoreAllKeysFrom([], entries, key);
  }

  lemma {:induction false} StoreAllKeysFrom(obj: seq<Field>, entries: seq<Entry>, key: string)
    requires key in KeysOf(StoreAll(obj, entries))
    ensures key in KeysOf(obj) || (key != "__proto__" && exists i :: 0 <= i < |entries| && entries[i].key == key)
    decreases |entries|
  {
    if |entries| > 0 {
      var obj' := Store(obj, entries[0].key, entries[0].value);
      StoreAllKeysFrom(obj', entries[1..], key);
      StoreKeys(obj, entries[0].key, entries[0].value);
      if key !in KeysOf(obj') {
        var i :| 0 <= i < |entries[1..]| && entries[1..][i].key == key;
        assert entries[i + 1].key == key;
      }
    }
  }

  /** The document `initSettings` writes, fields in the order the object literal gives them. */
  function InitialDocument(provider: string, providerConfig: seq<Field>): Json {
    JObj(Present(InitialEntries(provider, providerConfig, EncodeCommitment(GetDefaults().commitment))))
  }

  function InitialEntries(provider: string, providerConfig: seq<Field>, commitment: Json): seq<(string, Option<Json>)> {
    [("payload", Some(JObj([]))),
     ("metadata", Some(JObj([]))),
     ("commitment", Some(commitment)),
     ("provider", Some(JStr(provider))),
     ("providers", Some(JObj(Spread([], providerConfig))))]
  }

  lemma InitialEntriesDistinct(provider: string, providerConfig: seq<Field>, commitment: Json)
    ensures DistinctEntryKeys(InitialEntries(provider, providerConfig, commitment))
  {
  }

  lemma InitialEntriesFields(provider: string, providerConfig: seq<Field>, commitment: Json)
    ensures var fs := Present(InitialEntries(provider, providerConfig, commitment));
            && Lookup(fs, "payload") == Some(JObj([]))
            && Lookup(fs, "metadata") == Some(JObj([]))
            && Lookup(fs, "commitment") == Some(commitment)
            && Lookup(fs, "provider") == Some(JStr(provider))
            && Lookup(fs, "providers") == Some(JObj(Spread([], providerConfig)))
            && Lookup(fs, "proxy") == None
  {
    var entries := InitialEntries(provider, providerConfig, commitment);
    InitialEntriesDistinct(provider, providerConfig, commitment);
    LookupPresent(entries, 0);
    LookupPresent(entries, 1);
    LookupPresent(entries, 2);
    LookupPresent(entries, 3);
    LookupPresent(entries, 4);
    LookupPresentAbsent(entries, "proxy");
  }

  /**
   * What the first document holds: `payload` and `metadata` empty (the
   * collected headers are not stored), the default `commitment`, the chosen
   * provider, and the provider configuration spread into `{}`.
   */
  lemma InitialDocumentFields(provider: string, providerConfig: seq<Field>)
    ensures var fs := InitialDocument(provider, providerConfig).fields;
            && Lookup(fs, "payload") == Some(JObj([]))
            && Lookup(fs, "metadata") == Some(JObj([]))
            && Lookup(fs, "commitment") == Some(EncodeCommitment(GetDefaults().commitment))
            && Lookup(fs, "provider") == Some(JStr(provider))
            && Lookup(fs, "providers") == Some(JObj(Spread([], providerConfig)))
            && Lookup(fs, "proxy") == None
  {
    InitialEntriesFields(provider, providerConfig, EncodeCommitment(GetDefaults().commitment));
  }

  /**
   * A first document built from a registered provider name and a provider
   * configuration the schema accepts passes validation, and the settings
   * read from it are the chosen provider with the default commitment.
   */
  lemma InitialDocumentIsValid(provider: string, providerConfig: seq<Field>, isUrl: string -> bool)
    requires provider == "kimi" || provider == "gemini"
    requires ParseProviders(Some(JObj(Spread([], providerConfig))), isUrl).Success?
    ensures var r := ParseSettings(InitialDocument(provider, providerConfig), isUrl);
            && r.Success?
            && r.value.commitment == GetDefaults().commitment
            && r.value.payload == Some([]) && r.value.metadata == Some([])
            && Name(r.value.provider) == provider
  {
    var defaults := GetDefaults().commitment;
    var fs := InitialDocument(provider, providerConfig).fields;
    InitialDocumentFields(provider, providerConfig);
    CommitmentRoundTrip(defaults);
    assert ParseCommitment(Lookup(fs, "commitment")) == Success(defaults);
    assert ParsePayload(Lookup(fs, "payload")) == Success(Some([]));
    assert ParseMetadata(Lookup(fs, "metadata")) == Success(Some([]));
    assert ParseOptionalUrl(Lookup(fs, "proxy"), ["proxy"], isUrl) == Success(None);
    assert ParseProvider(Lookup(fs, "provider")).Success?;
  }

  /**
   * `configureProvider(provider, rl)`, whose source is not part of this
   * model: given the provider name and the remaining answers, the provider
   * configuration it returns and the answers it leaves, or `None` when it
   * waits forever.
   */
  type Configure = (string, seq<string>) -> Option<(seq<Field>, seq<string>)>

  /**
   * `initSettings`: create the load-time settings directory (a failure
   * throws), ask for the provider, configure it, collect the additional
   * headers, save the first document with no directory argument, and exit 0.
   */
  function InitSettings(c: Constants, w: World, configure: Configure): (r: Run<int>)
    ensures SameHost(w, r.world)
    ensures r.Threw? <==> !CanMakeDirs(w, c.settingsDir)
    ensures r.Returned? ==> r.value == 0
    ensures r.Returned? <==>
              && CanMakeDirs(w, c.settingsDir)
              && |w.answers| > 0
              && configure(w.answers[0], w.answers[1..]).Some?
              && Collect(configure(w.answers[0], w.answers[1..]).value.1, []).Some?
    ensures r.Returned? ==> r.world.answers == Collect(configure(w.answers[0], w.answers[1..]).value.1, []).value.1
    ensures r.Waiting? ==> r.world.files == w.files
  {
    match MakeDirs(w, c.settingsDir)
    case Failure(_) => Threw(w)
    case Success(w1) =>
      match Ask(w1)
      case None => Waiting(w1)
      case Some((provider, w2)) =>
        match configure(provider, w2.answers)
        case None => Waiting(w2.(answers := []))
        case Some((providerConfig, left)) =>
          match Collect(left, [])
          case None => Waiting(w2.(answers := []))
          case Some((_, rest)) =>
            var saved := SaveSettings(c, w2.(answers := rest), InitialDocument(provider, providerConfig), None);
            Returned(0, saved.world)
  }

  /** Saving into a freshly made settings directory writes the file unless a directory stands there. */
  lemma SaveAfterMakeDirs(c: Constants, w: World, made: World, doc: Json)
    requires made.files == w.files && made.dirs == w.dirs + {c.settingsDir} + Ancestors(c.settingsDir)
    ensures c.settingsDir in SaveSettings(c, made, doc, None).world.dirs
    ensures SaveSettings(c, made, doc, None).world.files
              == if PathJoin(c.settingsDir, SettingsFileName) in w.dirs then w.files
                 else w.files[PathJoin(c.settingsDir, SettingsFileName) := Document(doc)]
  {
    var target := PathJoin(c.settingsDir, SettingsFileName);
    assert target != c.settingsDir && target !in Ancestors(c.settingsDir);
    assert TargetPath(c, None) == target && !HasDirectory(None);
  }

  /**
   * A completed first run leaves the settings directory in place and, unless
   * a directory stands where the file goes, the first document in the file;
   * no other file changes.
   */
  lemma InitSettingsWrites(c: Constants, w: World, configure: Configure)
    requires InitSettings(c, w, configure).Returned?
    ensures c.settingsDir in InitSettings(c, w, configure).world.dirs
    ensures InitSettings(c, w, configure).world.files
              == if PathJoin(c.settingsDir, SettingsFileName) in w.dirs then w.files
                 else w.files[PathJoin(c.settingsDir, SettingsFileName) :=
                                Document(InitialDocument(w.answers[0], configure(w.answers[0], w.answers[1..]).value.0))]
  {
    var w1 := MakeDirs(w, c.settingsDir).value;
    var provider := w.answers[0];
    var w2 := w1.(answers := w1.answers[1..]);
    var next := configure(provider, w2.answers).value;
    var rest := Collect(next.1, []).value.1;
    var doc := InitialDocument(provider, next.0);
    assert InitSettings(c, w, configure) == Returned(0, SaveSettings(c, w2.(answers := rest), doc, None).world);
    assert w2.answers == w.answers[1..];
    SaveAfterMakeDirs(c, w, w2.(answers := rest), doc);
  }
}
