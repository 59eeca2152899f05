/**
 * JSON values as the program holds them after `JSON.parse`: objects keep their
 * fields in insertion order, and property access is JavaScript's optional
 * chaining with truthiness tests.
 */
module JsonValue {
  import opened Wrappers

  datatype Json =
    | JNull
    | JBool(b: bool)
    | JNum(n: int)
    | JStr(s: string)
    | JArr(items: seq<Json>)
    | JObj(fields: seq<Field>)

  datatype Field = Field(key: string, value: Json)

  function KeysOf(fields: seq<Field>): (keys: seq<string>)
    ensures |keys| == |fields|
    ensures forall i :: 0 <= i < |fields| ==> keys[i] == fields[i].key
  {
    if |fields| == 0 then [] else [fields[0].key] + KeysOf(fields[1..])
  }

  predicate DistinctKeys(fields: seq<Field>) {
    forall i, j :: 0 <= i < j < |fields| ==> fields[i].key != fields[j].key
  }

  /** `obj[key]` on an object: the value of the first field named `key`, `None` for `undefined`. */
  function Lookup(fields: seq<Field>, key: string): Option<Json> {
    if |fields| == 0 then None
    else if fields[0].key == key then Some(fields[0].value)
    else Lookup(fields[1..], key)
  }

  /** A key is found exactly when some field carries it. */
  lemma {:induction false} LookupFound(fields: seq<Field>, key: string)
    ensures Lookup(fields, key).Some? <==> key in KeysOf(fields)
  {
    if |fields| > 0 {
      LookupFound(fields[1..], key);
      assert KeysOf(fields) == [fields[0].key] + KeysOf(fields[1..]);
    }
  }

  /** Looking up in an object whose first field is `f`. */
  lemma LookupCons(f: Field, rest: seq<Field>, key: string)
    ensures Lookup([f] + rest, key) == if f.key == key then Some(f.value) else Lookup(rest, key)
  {
    assert ([f] + rest)[1..] == rest;
  }

  /** `v?.key`: `undefined` unless `v` is an object that has the key. */
  function Member(v: Option<Json>, key: string): Option<Json> {
    match v
    case Some(JObj(fields)) => Lookup(fields, key)
    case _ => None
  }

  /** JavaScript truthiness of a possibly-`undefined` JSON value. */
  predicate Truthy(v: Option<Json>) {
    match v
    case None => false
    case Some(JNull) => false
    case Some(JBool(b)) => b
    case Some(JNum(n)) => n != 0
    case Some(JStr(s)) => s != ""
    case Some(JArr(_)) => true
    case Some(JObj(_)) => true
  }

  /**
   * `obj[key] = value`: replaces the value of an existing key in place,
   * otherwise appends a new field at the end.
   */
  function Assign(fields: seq<Field>, key: string, value: Json): (r: seq<Field>)
    ensures Lookup(r, key) == Some(value)
    ensures forall k :: k != key ==> Lookup(r, k) == Lookup(fields, k)
    ensures key in KeysOf(fields) ==> KeysOf(r) == KeysOf(fields)
    ensures key !in KeysOf(fields) ==> KeysOf(r) == KeysOf(fields) + [key]
  {
    if |fields| == 0 then [Field(key, value)]
    else if fields[0].key == key then [Field(key, value)] + fields[1..]
    else
      var rest := Assign(fields[1..], key, value);
      assert ([fields[0]] + rest)[1..] == rest;
      [fields[0]] + rest
  }

  /**
   * Assigning never introduces a duplicate key, so objects built from
   * duplicate-free ones stay duplicate-free.
   */
  lemma AssignKeepsDistinct(fields: seq<Field>, key: string, value: Json)
    requires DistinctKeys(fields)
    ensures DistinctKeys(Assign(fields, key, value))
  {
    var r := Assign(fields, key, value);
    var ks, rs := KeysOf(fields), KeysOf(r);
    forall i, j | 0 <= i < j < |r|
      ensures r[i].key != r[j].key
    {
      assert r[i].key == rs[i] && r[j].key == rs[j];
      if j < |fields| {
        assert rs[i] == ks[i] && rs[j] == ks[j];
      } else {
        assert rs[i] == ks[i] && rs[j] == key;
      }
    }
  }

  /** `{...base, ...extra}`: the fields of `extra` assigned one by one onto `base`. */
  function Spread(base: seq<Field>, extra: seq<Field>): (r: seq<Field>)
    ensures forall k :: k !in KeysOf(extra) ==> Lookup(r, k) == Lookup(base, k)
    ensures forall k :: k in KeysOf(extra) ==> Lookup(r, k).Some?
    decreases |extra|
  {
    if |extra| == 0 then base
    else
      Spread(Assign(base, extra[0].key, extra[0].value), extra[1..])
  }

  /** Spreading an object with distinct keys into `{}` reproduces it key for key. */
  lemma {:induction false} SpreadIntoEmpty(base: seq<Field>, extra: seq<Field>)
    requires DistinctKeys(extra)
    ensures forall k :: k in KeysOf(extra) ==> Lookup(Spread(base, extra), k) == Lookup(extra, k)
    decreases |extra|
  {
    if |extra| > 0 {
      var b1 := Assign(base, extra[0].key, extra[0].value);
      SpreadIntoEmpty(b1, extra[1..]);
      forall k | k in KeysOf(extra)
        ensures Lookup(Spread(base, extra), k) == Lookup(extra, k)
      {
        if k == extra[0].key {
          assert k !in KeysOf(extra[1..]);
        } else {
          assert k in KeysOf(extra[1..]);
        }
      }
    }
  }

  /** Looking a key up in two objects laid end to end finds the first one's field first. */
  lemma {:induction false} LookupAppend(a: seq<Field>, b: seq<Field>, key: string)
    ensures Lookup(a + b, key) == if key in KeysOf(a) then Lookup(a, key) else Lookup(b, key)
  {
    if |a| > 0 {
      assert (a + b)[0] == a[0];
      assert (a + b)[1..] == a[1..] + b;
      LookupAppend(a[1..], b, key);
    } else {
      assert a + b == b;
    }
  }

  /**
   * The fields of an object literal whose members may be `undefined`:
   * serialisation drops the undefined ones and keeps the order of the rest.
   */
  function Present(entries: seq<(string, Option<Json>)>): (r: seq<Field>)
    ensures |r| <= |entries|
  {
    if |entries| == 0 then []
    else (if entries[0].1.Some? then [Field(entries[0].0, entries[0].1.value)] else [])
         + Present(entries[1..])
  }

  /** No two entries share a key. */
  predicate DistinctEntryKeys(entries: seq<(string, Option<Json>)>) {
    forall i, j :: 0 <= i < j < |entries| ==> entries[i].0 != entries[j].0
  }

  /** A key no entry has is absent from the serialised object. */
  lemma {:induction false} LookupPresentAbsent(entries: seq<(string, Option<Json>)>, key: string)
    requires forall i :: 0 <= i < |entries| ==> entries[i].0 != key
    ensures Lookup(Present(entries), key) == None
  {
    if |entries| > 0 {
      LookupPresentAbsent(entries[1..], key);
      var head := if entries[0].1.Some? then [Field(entries[0].0, entries[0].1.value)] else [];
      LookupAppend(head, Present(entries[1..]), key);
    }
  }

  /** With distinct keys, reading an entry's key back from the serialised object gives the entry's value. */
  lemma {:induction false} LookupPresent(entries: seq<(string, Option<Json>)>, i: nat)
    requires DistinctEntryKeys(entries)
    requires i < |entries|
    ensures Lookup(Present(entries), entries[i].0) == entries[i].1
  {
    var key := entries[i].0;
    var head := if entries[0].1.Some? then [Field(entries[0].0, entries[0].1.value)] else [];
    LookupAppend(head, Present(entries[1..]), key);
    if i == 0 {
      LookupPresentAbsent(entries[1..], key);
    } else {
      LookupPresent(entries[1..], i - 1);
    }
  }
}
