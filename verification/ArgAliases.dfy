/**
 * Command arguments on their way to the backend and to the log: camelCase aliases are added to every
 * object of the tree, and the log form hides the values of sensitive keys. An object is the sequence of
 * its own entries in enumeration order; its keys are distinct.
 */
module ArgAliases {
  import opened Wrappers

  datatype Value =
    | Scalar(text: string)
    | List(items: seq<Value>)
    | Object(entries: seq<Entry>)

  datatype Entry = Entry(key: string, value: Value)

  type Entries = seq<Entry>

  // Keys

  predicate IsLower(c: char) {
    'a' <= c <= 'z'
  }

  function ToUpper(c: char): char {
    if IsLower(c) then (c as int - 32) as char else c
  }

  /** Replaces every underscore and the lower-case letter after it by the letter in upper case. */
  function ToCamelCase(key: string): (r: string)
    ensures |r| <= |key|
  {
    if |key| >= 2 && key[0] == '_' && IsLower(key[1]) then [ToUpper(key[1])] + ToCamelCase(key[2..])
    else if key == [] then []
    else [key[0]] + ToCamelCase(key[1..])
  }

  /** Names every plain object inherits, which `in` finds although the object has no such entry. */
  const INHERITED: set<string> :=
    {"constructor", "hasOwnProperty", "isPrototypeOf", "propertyIsEnumerable", "toLocaleString", "toString", "valueOf",
     "__defineGetter__", "__defineSetter__", "__lookupGetter__", "__lookupSetter__", "__proto__"}

  // Object entries

  function IndexOfKey(o: Entries, key: string): (r: Option<nat>)
    ensures r.Some? ==> r.value < |o| && o[r.value].key == key
    ensures r.None? ==> forall i | 0 <= i < |o| :: o[i].key != key
  {
    if o == [] then None
    else if o[|o| - 1].key == key then Some(|o| - 1)
    else IndexOfKey(o[..|o| - 1], key)
  }

  predicate HasKey(o: Entries, key: string) {
    IndexOfKey(o, key).Some?
  }

  ghost predicate DistinctKeys(o: Entries) {
    forall i, j | 0 <= i < j < |o| :: o[i].key != o[j].key
  }

  /** Assignment to a property: in place when the key exists, otherwise at the end. */
  function Put(o: Entries, key: string, value: Value): Entries {
    match IndexOfKey(o, key)
    case Some(k) => o[k := Entry(key, value)]
    case None => o + [Entry(key, value)]
  }

  /** The `in` operator. */
  predicate Present(o: Entries, key: string) {
    HasKey(o, key) || key in INHERITED
  }

  // Aliasing

  function PutWithAlias(o: Entries, key: string, value: Value): Entries {
    var own, camel := Put(o, key, value), ToCamelCase(key);
    if camel != key && !Present(own, camel) then Put(own, camel, value) else own
  }

  function Alias(v: Value): Value
    decreases v, 0
  {
    match v
    case Scalar(_) => v
    case List(items) => List(AliasItems(items))
    case Object(entries) => Object(AliasEntries(entries, []))
  }

  function AliasItems(items: seq<Value>): (r: seq<Value>)
    ensures |r| == |items|
    decreases items, 1
  {
    if items == [] then [] else [Alias(items[0])] + AliasItems(items[1..])
  }

  /** Processes entries in order, adding to the result built so far. */
  function AliasEntries(entries: Entries, built: Entries): Entries
    decreases entries, 1
  {
    if entries == [] then built
    else AliasEntries(entries[1..], PutWithAlias(built, entries[0].key, Alias(entries[0].value)))
  }

  /** The recursive function of the source, with its loop over the entries. */
  method WithTauriArgAliases(value: Value) returns (r: Value)
    ensures r == Alias(value)
    decreases value
  {
    match value
    case Scalar(_) =>
      r := value;
    case List(items) =>
      var result: seq<Value> := [];
      assert items[..0] == [];
      for i := 0 to |items|
        invariant result + AliasItems(items[i..]) == AliasItems(items)
      {
        var item := WithTauriArgAliases(items[i]);
        assert items[i..][1..] == items[i + 1..];
        result := result + [item];
      }
      assert result + [] == result;
      r := List(result);
    case Object(entries) =>
      var result: Entries := [];
      for i := 0 to |entries|
        invariant AliasEntries(entries[i..], result) == AliasEntries(entries, [])
      {
        var key := entries[i].key;
        var normalized := WithTauriArgAliases(entries[i].value);
        assert entries[i..][1..] == entries[i + 1..];
        ghost var before := result;
        result := Put(result, key, normalized);
        var camelKey := ToCamelCase(key);
        if camelKey != key && !Present(result, camelKey) {
          result := Put(result, camelKey, normalized);
        }
        assert result == PutWithAlias(before, key, normalized);
      }
      r := Object(result);
  }

  // Camel case is idempotent

  /** No underscore is directly followed by a lower-case letter. */
  predicate NoSnake(s: string) {
    forall i | 0 <= i < |s| - 1 :: !(s[i] == '_' && IsLower(s[i + 1]))
  }

  lemma {:induction false} CamelHasNoSnake(key: string)
    ensures NoSnake(ToCamelCase(key))
    ensures key != [] && !(IsLower(key[0])) ==> ToCamelCase(key) == [] || !IsLower(ToCamelCase(key)[0])
  {
    if |key| >= 2 && key[0] == '_' && IsLower(key[1]) {
      CamelHasNoSnake(key[2..]);
    } else if key != [] {
      CamelHasNoSnake(key[1..]);
    }
  }

  lemma {:induction false} NoSnakeIsFixed(key: string)
    requires NoSnake(key)
    ensures ToCamelCase(key) == key
  {
    if key != [] {
      assert |key| >= 2 ==> !(key[0] == '_' && IsLower(key[0 + 1]));
      forall i | 0 <= i < |key[1..]| - 1 ensures !(key[1..][i] == '_' && IsLower(key[1..][i + 1])) {
        assert key[1..][i] == key[i + 1] && key[1..][i + 1] == key[i + 1 + 1];
      }
      NoSnakeIsFixed(key[1..]);
      assert [key[0]] + key[1..] == key;
    }
  }

  lemma CamelCaseIdempotent(key: string)
    ensures ToCamelCase(ToCamelCase(key)) == ToCamelCase(key)
  {
    CamelHasNoSnake(key);
    NoSnakeIsFixed(ToCamelCase(key));
  }

  // Aliasing is idempotent

  lemma PutKeepsDistinct(o: Entries, key: string, value: Value)
    requires DistinctKeys(o)
    ensures DistinctKeys(Put(o, key, value))
  {
  }

  /** The alias of every key is inherited, stands earlier, or stands right after it. */
  ghost predicate ClosedAt(o: Entries, i: nat)
    requires i < |o|
  {
    var camel := ToCamelCase(o[i].key);
    camel == o[i].key || camel in INHERITED || exists j | 0 <= j < |o| && j <= i + 1 :: o[j].key == camel
  }

  ghost predicate Closed(o: Entries) {
    forall i | 0 <= i < |o| :: ClosedAt(o, i)
  }

  ghost predicate FixedValues(o: Entries) {
    forall i | 0 <= i < |o| :: Alias(o[i].value) == o[i].value
  }

  ghost predicate Settled(o: Entries) {
    DistinctKeys(o) && Closed(o) && FixedValues(o)
  }

  /** Closedness only grows: more entries behind, or new values in place, keep it. */
  lemma ClosedExtends(o: Entries, r: Entries, i: nat)
    requires i < |o| <= |r| && ClosedAt(o, i)
    requires forall j | 0 <= j < |o| :: r[j].key == o[j].key
    ensures ClosedAt(r, i)
  {
    var camel := ToCamelCase(o[i].key);
    if camel != o[i].key && camel !in INHERITED {
      var j :| 0 <= j < |o| && j <= i + 1 && o[j].key == camel;
      assert r[j].key == camel;
    }
  }

  lemma SettledAfterOverwrite(o: Entries, k: nat, value: Value)
    requires Settled(o) && k < |o| && Alias(value) == value
    ensures Settled(o[k := Entry(o[k].key, value)])
  {
    var r := o[k := Entry(o[k].key, value)];
    forall i | 0 <= i < |r| ensures ClosedAt(r, i) {
      ClosedExtends(o, r, i);
    }
  }

  /** Appending a key whose alias needs no entry of its own. */
  lemma SettledAfterAppend(o: Entries, key: string, value: Value)
    requires Settled(o) && Alias(value) == value && !HasKey(o, key)
    requires ToCamelCase(key) == key || Present(o, ToCamelCase(key))
    ensures Settled(o + [Entry(key, value)])
  {
    var r, camel := o + [Entry(key, value)], ToCamelCase(key);
    forall i | 0 <= i < |r| ensures ClosedAt(r, i) {
      if i < |o| {
        ClosedExtends(o, r, i);
      } else if HasKey(o, camel) {
        assert r[IndexOfKey(o, camel).value].key == camel;
      }
    }
  }

  /** Appending a new key together with its alias. */
  lemma SettledAfterPair(o: Entries, key: string, value: Value)
    requires Settled(o) && Alias(value) == value && !HasKey(o, key)
    requires ToCamelCase(key) != key && !HasKey(o, ToCamelCase(key))
    ensures Settled(o + [Entry(key, value), Entry(ToCamelCase(key), value)])
  {
    var camel := ToCamelCase(key);
    var r := o + [Entry(key, value), Entry(camel, value)];
    CamelCaseIdempotent(key);
    forall i | 0 <= i < |r| ensures ClosedAt(r, i) {
      if i < |o| {
        ClosedExtends(o, r, i);
      } else {
        assert r[|o| + 1].key == camel;
      }
    }
  }

  lemma SettledAfterPutWithAlias(o: Entries, key: string, value: Value)
    requires Settled(o) && Alias(value) == value
    ensures Settled(PutWithAlias(o, key, value))
  {
    var own, camel := Put(o, key, value), ToCamelCase(key);
    if HasKey(o, key) {
      var k := IndexOfKey(o, key).value;
      SettledAfterOverwrite(o, k, value);
      assert ClosedAt(own, k);
    } else if camel == key || Present(o, camel) {
      SettledAfterAppend(o, key, value);
      assert ClosedAt(own, |o|);
      if HasKey(o, camel) {
        assert own[IndexOfKey(o, camel).value].key == camel;
      }
    } else {
      SettledAfterPair(o, key, value);
      assert own + [Entry(camel, value)] == o + [Entry(key, value), Entry(camel, value)];
    }
  }

  lemma {:induction false} AliasEntriesSettled(entries: Entries, built: Entries)
    requires Settled(built)
    requires forall i | 0 <= i < |entries| :: Alias(Alias(entries[i].value)) == Alias(entries[i].value)
    ensures Settled(AliasEntries(entries, built))
    decreases |entries|
  {
    if entries != [] {
      SettledAfterPutWithAlias(built, entries[0].key, Alias(entries[0].value));
      AliasEntriesSettled(entries[1..], PutWithAlias(built, entries[0].key, Alias(entries[0].value)));
    }
  }

  /** Half-way through a settled object: the first i entries are rebuilt, and perhaps the next key already. */
  ghost predicate Rebuilt(o: Entries, i: nat, built: Entries) {
    && i <= |o|
    && i <= |built| <= i + 1 && |built| <= |o|
    && built[..i] == o[..i]
    && (|built| == i + 1 ==> built[i].key == o[i].key)
  }

  lemma RebuildOwn(o: Entries, i: nat, built: Entries)
    requires DistinctKeys(o) && i < |o| && Rebuilt(o, i, built)
    ensures Put(built, o[i].key, o[i].value) == o[..i + 1]
  {
    assert forall j | 0 <= j < i :: built[j] == o[j];
  }

  lemma RebuildStep(o: Entries, i: nat, built: Entries)
    requires Settled(o) && i < |o| && Rebuilt(o, i, built)
    ensures Rebuilt(o, i + 1, PutWithAlias(built, o[i].key, o[i].value))
  {
    var key, value, camel := o[i].key, o[i].value, ToCamelCase(o[i].key);
    RebuildOwn(o, i, built);
    var own := o[..i + 1];
    assert forall j | 0 <= j <= i :: own[j].key == o[j].key;
    if camel != key && !Present(own, camel) {
      assert ClosedAt(o, i);
      var j :| 0 <= j < |o| && j <= i + 1 && o[j].key == camel;
      assert j == i + 1;
      assert Put(own, camel, value) == own + [Entry(camel, value)];
      assert (own + [Entry(camel, value)])[..i + 1] == own;
    }
  }

  lemma {:induction false} SettledIsFixed(o: Entries, i: nat, built: Entries)
    requires Settled(o) && Rebuilt(o, i, built)
    ensures AliasEntries(o[i..], built) == o
    decreases |o| - i
  {
    if i == |o| {
      assert built == built[..i] && o == o[..i];
    } else {
      assert o[i..][0] == o[i] && o[i..][1..] == o[i + 1..];
      RebuildStep(o, i, built);
      SettledIsFixed(o, i + 1, PutWithAlias(built, o[i].key, o[i].value));
    }
  }

  lemma {:induction false} AliasItemsFixed(items: seq<Value>)
    requires forall i | 0 <= i < |items| :: Alias(Alias(items[i])) == Alias(items[i])
    ensures AliasItems(AliasItems(items)) == AliasItems(items)
  {
    if items != [] {
      AliasItemsFixed(items[1..]);
      var r := AliasItems(items);
      assert r[0] == Alias(items[0]) && r[1..] == AliasItems(items[1..]);
    }
  }

  /** Adding aliases twice is the same as adding them once, on every tree and with the same key order. */
  lemma {:induction false} AliasIdempotent(v: Value)
    ensures Alias(Alias(v)) == Alias(v)
    decreases v
  {
    match v
    case Scalar(_) =>
    case List(items) =>
      forall i | 0 <= i < |items| ensures Alias(Alias(items[i])) == Alias(items[i]) {
        AliasIdempotent(items[i]);
      }
      AliasItemsFixed(items);
    case Object(entries) =>
      forall i | 0 <= i < |entries| ensures Alias(Alias(entries[i].value)) == Alias(entries[i].value) {
        AliasIdempotent(entries[i].value);
      }
      AliasEntriesSettled(entries, []);
      var o := AliasEntries(entries, []);
      SettledIsFixed(o, 0, []);
      assert o[0..] == o;
  }

  // What an aliased object holds

  function Lookup(o: Entries, key: string): Option<Value> {
    match IndexOfKey(o, key)
    case Some(k) => Some(o[k].value)
    case None => None
  }

  /** The value of the first entry whose alias is the given key. */
  function FirstAliased(entries: Entries, key: string): Option<Value> {
    if entries == [] then None
    else
      var earlier, last := FirstAliased(entries[..|entries| - 1], key), entries[|entries| - 1];
      if earlier.Some? then earlier
      else if ToCamelCase(last.key) == key && last.key != key then Some(Alias(last.value))
      else None
  }

  /** Own keys keep their values; other keys come from the first entry they alias, unless inherited. */
  function ExpectedLookup(entries: Entries, key: string): Option<Value> {
    match Lookup(entries, key)
    case Some(v) => Some(Alias(v))
    case None => if key in INHERITED then None else FirstAliased(entries, key)
  }

  lemma FoundAt(o: Entries, i: nat)
    requires DistinctKeys(o) && i < |o|
    ensures Lookup(o, o[i].key) == Some(o[i].value)
  {
  }

  lemma LookupPut(o: Entries, key: string, value: Value, other: string)
    requires DistinctKeys(o)
    ensures Lookup(Put(o, key, value), other) == if other == key then Some(value) else Lookup(o, other)
  {
    var r := Put(o, key, value);
    PutKeepsDistinct(o, key, value);
    if other == key {
      FoundAt(r, if HasKey(o, key) then IndexOfKey(o, key).value else |o|);
    } else if HasKey(o, other) {
      FoundAt(r, IndexOfKey(o, other).value);
    } else {
      assert forall i | 0 <= i < |r| :: r[i].key != other;
    }
  }

  lemma {:induction false} AliasEntriesSnoc(entries: Entries, last: Entry, built: Entries)
    ensures AliasEntries(entries + [last], built)
            == PutWithAlias(AliasEntries(entries, built), last.key, Alias(last.value))
    decreases |entries|
  {
    if entries == [] {
      assert entries + [last] == [last];
    } else {
      assert (entries + [last])[1..] == entries[1..] + [last];
      AliasEntriesSnoc(entries[1..], last, PutWithAlias(built, entries[0].key, Alias(entries[0].value)));
    }
  }

  /**
   * Every key of an aliased object, own or added: an explicit key, camelCase or not, keeps its own value
   * whatever the key order, and an alias carries the value of the first entry that produces it.
   */
  lemma {:induction false} AliasedLookup(entries: Entries, key: string)
    requires DistinctKeys(entries)
    ensures DistinctKeys(AliasEntries(entries, []))
    ensures Lookup(AliasEntries(entries, []), key) == ExpectedLookup(entries, key)
  {
    if entries != [] {
      var front, last := entries[..|entries| - 1], entries[|entries| - 1];
      assert entries == front + [last];
      AliasEntriesSnoc(front, last, []);
      var built, value, camel := AliasEntries(front, []), Alias(last.value), ToCamelCase(last.key);
      AliasedLookup(front, key);
      AliasedLookup(front, camel);
      var own := Put(built, last.key, value);
      PutKeepsDistinct(built, last.key, value);
      PutKeepsDistinct(own, camel, value);
      LookupPut(built, last.key, value, key);
      LookupPut(built, last.key, value, camel);
      LookupPut(own, camel, value, key);
      LookupPut(front, last.key, last.value, key);
      assert !HasKey(front, last.key);
    }
  }
}
