/**
 * The log form of command arguments: values under sensitive keys are hidden. Redaction runs on arguments
 * that already carry camelCase aliases, so every alias of a sensitive key has to be sensitive too.
 */
module LogRedaction {
  import opened Text
  import opened ArgAliases

  // Redaction

  const MARKERS: seq<string> :=
    ["senha", "password", "confirm_password", "password_confirmation", "token", "secret", "api_key", "apikey",
     "authorization"]

  /** White space by ECMAScript's trim. */
  predicate IsJsSpace(c: char) {
    var u := c as int;
    || 9 <= u <= 13 || u == 32 || u == 0xA0 || u == 0x1680 || 0x2000 <= u <= 0x200A
    || u == 0x2028 || u == 0x2029 || u == 0x202F || u == 0x205F || u == 0x3000 || u == 0xFEFF
  }

  function TrimJs(s: string): (r: string)
    ensures |r| <= |s|
  {
    if s != [] && IsJsSpace(s[0]) then TrimJs(s[1..])
    else if s != [] && IsJsSpace(s[|s| - 1]) then TrimJs(s[..|s| - 1])
    else s
  }

  predicate ContainsAny(s: string, markers: seq<string>) {
    exists i | 0 <= i < |markers| :: Contains(s, markers[i])
  }

  predicate IsSensitiveKey(markers: seq<string>, key: string) {
    ContainsAny(Lower(TrimJs(key)), markers)
  }

  const REDACTED := Scalar("***")

  function Sanitize(markers: seq<string>, v: Value): Value
    decreases v, 0
  {
    match v
    case Scalar(_) => v
    case List(items) => List(SanitizeItems(markers, items))
    case Object(entries) => Object(SanitizeEntries(markers, entries, []))
  }

  function SanitizeItems(markers: seq<string>, items: seq<Value>): (r: seq<Value>)
    ensures |r| == |items|
    decreases items, 1
  {
    if items == [] then [] else [Sanitize(markers, items[0])] + SanitizeItems(markers, items[1..])
  }

  function SanitizeEntries(markers: seq<string>, entries: Entries, built: Entries): Entries
    decreases entries, 1
  {
    if entries == [] then built
    else
      var Entry(key, item) := entries[0];
      SanitizeEntries(markers, entries[1..], Put(built, key, if IsSensitiveKey(markers, key) then REDACTED else Sanitize(markers, item)))
  }

  method SanitizeForLog(markers: seq<string>, value: Value) returns (r: Value)
    ensures r == Sanitize(markers, value)
    decreases value
  {
    match value
    case Scalar(_) =>
      r := value;
    case List(items) =>
      var result: seq<Value> := [];
      for i := 0 to |items|
        invariant result + SanitizeItems(markers, items[i..]) == SanitizeItems(markers, items)
      {
        var item := SanitizeForLog(markers, items[i]);
        assert items[i..][1..] == items[i + 1..];
        result := result + [item];
      }
      assert result + [] == result;
      r := List(result);
    case Object(entries) =>
      var sanitized: Entries := [];
      for i := 0 to |entries|
        invariant SanitizeEntries(markers, entries[i..], sanitized) == SanitizeEntries(markers, entries, [])
      {
        var Entry(key, item) := entries[i];
        assert entries[i..][1..] == entries[i + 1..];
        if IsSensitiveKey(markers, key) {
          sanitized := Put(sanitized, key, REDACTED);
        } else {
          var clean := SanitizeForLog(markers, item);
          sanitized := Put(sanitized, key, clean);
        }
      }
      r := Object(sanitized);
  }

  // Sensitive keys

  /** The key begins with the text, ignoring case. */
  predicate Begins(key: string, part: string) {
    part == [] || (key != [] && ToLower(key[0]) == part[0] && Begins(key[1..], part[1..]))
  }

  predicate Has(key: string, part: string) {
    Begins(key, part) || (key != [] && Has(key[1..], part))
  }

  /** The key begins with `pre` and `post`, with or without an underscore between them. */
  predicate BeginsLoosely(key: string, pre: string, post: string)
    decreases |pre|
  {
    if pre == [] then Begins(key, post) || (key != [] && key[0] == '_' && Begins(key[1..], post))
    else key != [] && ToLower(key[0]) == pre[0] && BeginsLoosely(key[1..], pre[1..], post)
  }

  predicate HasLoosely(key: string, pre: string, post: string) {
    BeginsLoosely(key, pre, post) || (key != [] && HasLoosely(key[1..], pre, post))
  }

  lemma {:induction false} BeginsIsPrefix(key: string, part: string)
    ensures Begins(key, part) <==> part <= Lower(key)
  {
    if part != [] && key != [] {
      BeginsIsPrefix(key[1..], part[1..]);
      assert Lower(key)[1..] == Lower(key[1..]);
      assert part <= Lower(key) <==> part[0] == Lower(key)[0] && part[1..] <= Lower(key)[1..];
    }
  }

  lemma {:induction false} HasIsContains(key: string, part: string)
    ensures Has(key, part) <==> Contains(Lower(key), part)
  {
    BeginsIsPrefix(key, part);
    if key != [] {
      HasIsContains(key[1..], part);
      assert Lower(key)[1..] == Lower(key[1..]);
    }
  }

  lemma {:induction false} BeginsLooselyMeans(key: string, pre: string, post: string)
    ensures BeginsLoosely(key, pre, post) <==> Begins(key, pre + post) || Begins(key, pre + ("_" + post))
    decreases |pre|
  {
    if pre == [] {
      assert pre + post == post && pre + ("_" + post) == "_" + post;
      assert ("_" + post)[1..] == post;
    } else {
      assert (pre + post)[1..] == pre[1..] + post;
      assert (pre + ("_" + post))[1..] == pre[1..] + ("_" + post);
      if key != [] {
        BeginsLooselyMeans(key[1..], pre[1..], post);
      }
    }
  }

  lemma {:induction false} HasLooselyMeans(key: string, pre: string, post: string)
    ensures HasLoosely(key, pre, post) <==> Has(key, pre + post) || Has(key, pre + ("_" + post))
  {
    BeginsLooselyMeans(key, pre, post);
    if key != [] {
      HasLooselyMeans(key[1..], pre, post);
    }
  }

  predicate Raised(key: string) {
    |key| >= 2 && key[0] == '_' && IsLower(key[1])
  }

  /** Text without underscores at the head of a key stays at the head of its alias. */
  lemma {:induction false} PlainHead(key: string, part: string)
    requires '_' !in part && Begins(key, part)
    ensures Begins(ToCamelCase(key), part)
  {
    if part != [] {
      assert part[0] in part && key[0] != '_';
      assert ToCamelCase(key)[1..] == ToCamelCase(key[1..]);
      PlainHead(key[1..], part[1..]);
    }
  }

  /** A contained text without underscores is contained in the alias. */
  lemma {:induction false} PlainSurvives(key: string, part: string)
    requires '_' !in part && part != [] && Has(key, part)
    ensures Has(ToCamelCase(key), part)
    decreases |key|
  {
    var camel := ToCamelCase(key);
    if Begins(key, part) {
      PlainHead(key, part);
    } else if Raised(key) {
      assert key[1..][1..] == key[2..];
      assert camel[1..] == ToCamelCase(key[2..]);
      if Begins(key[1..], part) {
        PlainHead(key[2..], part[1..]);
      } else {
        PlainSurvives(key[2..], part);
      }
    } else {
      assert camel[1..] == ToCamelCase(key[1..]);
      PlainSurvives(key[1..], part);
    }
  }

  /** With one optional underscore inside, the head of a key stays at the head of its alias. */
  lemma {:induction false} LooseHead(key: string, pre: string, post: string)
    requires '_' !in pre && '_' !in post && post != [] && IsLower(post[0])
    requires BeginsLoosely(key, pre, post)
    ensures BeginsLoosely(ToCamelCase(key), pre, post)
    decreases |pre|
  {
    var camel := ToCamelCase(key);
    if pre != [] {
      assert pre[0] in pre && key[0] != '_';
      assert camel[1..] == ToCamelCase(key[1..]);
      LooseHead(key[1..], pre[1..], post);
    } else if Begins(key, post) {
      PlainHead(key, post);
    } else if Raised(key) {
      assert key[1..][1..] == key[2..];
      assert camel[1..] == ToCamelCase(key[2..]);
      PlainHead(key[2..], post[1..]);
    } else {
      assert camel[1..] == ToCamelCase(key[1..]);
      PlainHead(key[1..], post);
    }
  }

  lemma {:induction false} LooseSurvives(key: string, pre: string, post: string)
    requires '_' !in pre && '_' !in post && pre != [] && post != [] && IsLower(post[0])
    requires HasLoosely(key, pre, post)
    ensures HasLoosely(ToCamelCase(key), pre, post)
    decreases |key|
  {
    var camel := ToCamelCase(key);
    if BeginsLoosely(key, pre, post) {
      LooseHead(key, pre, post);
    } else if Raised(key) {
      assert key[1..][1..] == key[2..];
      assert camel[1..] == ToCamelCase(key[2..]);
      if BeginsLoosely(key[1..], pre, post) {
        LooseHead(key[2..], pre[1..], post);
      } else {
        LooseSurvives(key[2..], pre, post);
      }
    } else {
      assert camel[1..] == ToCamelCase(key[1..]);
      LooseSurvives(key[1..], pre, post);
    }
  }

  lemma {:induction false} ContainsPart(s: string, part: string, inner: string, at: nat)
    requires Contains(s, part) && at <= |part| && inner <= part[at..]
    ensures Contains(s, inner)
    decreases |s|
  {
    if part <= s {
      assert inner <= s[at..];
      ContainsLater(s, inner, at);
    } else {
      ContainsPart(s[1..], part, inner, at);
    }
  }

  lemma {:induction false} ContainsLater(s: string, part: string, at: nat)
    requires at <= |s| && Contains(s[at..], part)
    ensures Contains(s, part)
    decreases at
  {
    if at > 0 {
      assert s[1..][at - 1..] == s[at..];
      ContainsLater(s[1..], part, at - 1);
    } else {
      assert s[0..] == s;
    }
  }

  predicate HasSpace(s: string) {
    exists i | 0 <= i < |s| :: IsJsSpace(s[i])
  }

  lemma {:induction false} ContainsWithoutLast(s: string, part: string)
    requires s != [] && part != [] && s[|s| - 1] !in part
    ensures Contains(s, part) <==> Contains(s[..|s| - 1], part)
    decreases |s|
  {
    var front := s[..|s| - 1];
    if part <= s {
      assert part[|part| - 1] in part && part[|part| - 1] == s[|part| - 1];
      assert part <= front;
    }
    if |s| > 1 {
      ContainsWithoutLast(s[1..], part);
      assert s[1..][..|s| - 2] == front[1..];
    } else {
      assert part[0] in part;
    }
  }

  /** Trimming never decides sensitivity, because markers contain no white space. */
  lemma {:induction false} TrimDoesNotMatter(key: string, part: string)
    requires part != [] && !HasSpace(part)
    ensures Contains(Lower(TrimJs(key)), part) <==> Contains(Lower(key), part)
    decreases |key|
  {
    if key != [] && IsJsSpace(key[0]) {
      TrimDoesNotMatter(key[1..], part);
      assert Lower(key)[0] == key[0];
      assert part[0] != key[0];
      assert !(part <= Lower(key));
      assert Lower(key)[1..] == Lower(key[1..]);
    } else if key != [] && IsJsSpace(key[|key| - 1]) {
      TrimDoesNotMatter(key[..|key| - 1], part);
      assert Lower(key)[|key| - 1] == key[|key| - 1];
      assert key[|key| - 1] !in part;
      ContainsWithoutLast(Lower(key), part);
      assert Lower(key)[..|key| - 1] == Lower(key[..|key| - 1]);
    }
  }

  lemma MarkersHaveNoSpace(i: nat)
    requires i < |MARKERS|
    ensures MARKERS[i] != [] && !HasSpace(MARKERS[i])
  {
  }

  lemma SensitiveWithoutTrim(key: string)
    ensures IsSensitiveKey(MARKERS, key) <==> ContainsAny(Lower(key), MARKERS)
  {
    forall i | 0 <= i < |MARKERS| ensures Contains(Lower(TrimJs(key)), MARKERS[i]) <==> Contains(Lower(key), MARKERS[i]) {
      MarkersHaveNoSpace(i);
      TrimDoesNotMatter(key, MARKERS[i]);
    }
  }

  lemma MarkerMakesSensitive(key: string, i: nat)
    requires i < |MARKERS| && Contains(Lower(key), MARKERS[i])
    ensures IsSensitiveKey(MARKERS, key)
  {
    SensitiveWithoutTrim(key);
  }

  lemma SnakeMarkers(i: nat)
    requires i < |MARKERS|
    ensures i != 2 && i != 3 && i != 6 ==> '_' !in MARKERS[i]
    ensures MARKERS[1] <= MARKERS[2][8..] && MARKERS[1] <= MARKERS[3][0..]
    ensures MARKERS[6] == "api" + ("_" + "key") && MARKERS[7] == "api" + "key"
  {
  }

  /** Every alias of a sensitive key is itself sensitive. */
  lemma AliasOfSensitiveIsSensitive(key: string)
    requires IsSensitiveKey(MARKERS, key)
    ensures IsSensitiveKey(MARKERS, ToCamelCase(key))
  {
    SensitiveWithoutTrim(key);
    var camel := ToCamelCase(key);
    var i :| 0 <= i < |MARKERS| && Contains(Lower(key), MARKERS[i]);
    SnakeMarkers(i);
    if i == 6 {
      HasIsContains(key, MARKERS[6]);
      HasLooselyMeans(key, "api", "key");
      LooseSurvives(key, "api", "key");
      HasLooselyMeans(camel, "api", "key");
      HasIsContains(camel, MARKERS[6]);
      HasIsContains(camel, MARKERS[7]);
      MarkerMakesSensitive(camel, if Has(camel, MARKERS[6]) then 6 else 7);
    } else {
      var plain := if i == 2 || i == 3 then 1 else i;
      if i == 2 || i == 3 {
        ContainsPart(Lower(key), MARKERS[i], MARKERS[1], if i == 2 then 8 else 0);
      }
      SnakeMarkers(plain);
      MarkersHaveNoSpace(plain);
      HasIsContains(key, MARKERS[plain]);
      PlainSurvives(key, MARKERS[plain]);
      HasIsContains(camel, MARKERS[plain]);
      MarkerMakesSensitive(camel, plain);
    }
  }

  // Secrets never reach the log

  /** Equal trees, except that values under sensitive keys are arbitrary. */
  ghost predicate SameButSecrets(markers: seq<string>, a: Value, b: Value)
    decreases a
  {
    match (a, b)
    case (Scalar(s), Scalar(t)) => s == t
    case (List(xs), List(ys)) => |xs| == |ys| && forall i | 0 <= i < |xs| :: SameButSecrets(markers, xs[i], ys[i])
    case (Object(xs), Object(ys)) =>
      && |xs| == |ys|
      && forall i | 0 <= i < |xs| ::
           xs[i].key == ys[i].key
           && (IsSensitiveKey(markers, xs[i].key) || SameButSecrets(markers, xs[i].value, ys[i].value))
    case _ => false
  }

  ghost predicate SameEntries(markers: seq<string>, xs: Entries, ys: Entries) {
    && |xs| == |ys|
    && forall i | 0 <= i < |xs| ::
         xs[i].key == ys[i].key
         && (IsSensitiveKey(markers, xs[i].key) || SameButSecrets(markers, xs[i].value, ys[i].value))
  }

  lemma {:induction false} SameIndex(xs: Entries, ys: Entries, key: string)
    requires |xs| == |ys| && forall i | 0 <= i < |xs| :: xs[i].key == ys[i].key
    ensures IndexOfKey(xs, key) == IndexOfKey(ys, key)
  {
    if xs != [] && xs[|xs| - 1].key != key {
      SameIndex(xs[..|xs| - 1], ys[..|ys| - 1], key);
    }
  }

  lemma PutKeepsSame(xs: Entries, ys: Entries, key: string, v: Value, w: Value)
    requires SameEntries(MARKERS, xs, ys)
    requires IsSensitiveKey(MARKERS, key) || SameButSecrets(MARKERS, v, w)
    ensures SameEntries(MARKERS, Put(xs, key, v), Put(ys, key, w))
  {
    SameIndex(xs, ys, key);
  }

  lemma PutWithAliasKeepsSame(xs: Entries, ys: Entries, key: string, v: Value, w: Value)
    requires SameEntries(MARKERS, xs, ys)
    requires IsSensitiveKey(MARKERS, key) || SameButSecrets(MARKERS, v, w)
    ensures SameEntries(MARKERS, PutWithAlias(xs, key, v), PutWithAlias(ys, key, w))
  {
    var camel := ToCamelCase(key);
    var xs', ys' := Put(xs, key, v), Put(ys, key, w);
    PutKeepsSame(xs, ys, key, v, w);
    SameIndex(xs', ys', camel);
    if camel != key && !Present(xs', camel) {
      if IsSensitiveKey(MARKERS, key) {
        AliasOfSensitiveIsSensitive(key);
      }
      PutKeepsSame(xs', ys', camel, v, w);
    }
  }

  lemma {:induction false} AliasEntriesKeepSame(xs: Entries, ys: Entries, builtX: Entries, builtY: Entries)
    requires SameEntries(MARKERS, builtX, builtY) && |xs| == |ys|
    requires forall i | 0 <= i < |xs| ::
               xs[i].key == ys[i].key
               && (IsSensitiveKey(MARKERS, xs[i].key) || SameButSecrets(MARKERS, Alias(xs[i].value), Alias(ys[i].value)))
    ensures SameEntries(MARKERS, AliasEntries(xs, builtX), AliasEntries(ys, builtY))
    decreases |xs|
  {
    if xs != [] {
      var v, w := Alias(xs[0].value), Alias(ys[0].value);
      PutWithAliasKeepsSame(builtX, builtY, xs[0].key, v, w);
      AliasEntriesKeepSame(xs[1..], ys[1..], PutWithAlias(builtX, xs[0].key, v), PutWithAlias(builtY, xs[0].key, w));
    }
  }

  lemma {:induction false} AliasItemsAt(items: seq<Value>, i: nat)
    requires i < |items|
    ensures AliasItems(items)[i] == Alias(items[i])
  {
    if i > 0 {
      AliasItemsAt(items[1..], i - 1);
    }
  }

  lemma {:induction false} AliasKeepsSame(a: Value, b: Value)
    requires SameButSecrets(MARKERS, a, b)
    ensures SameButSecrets(MARKERS, Alias(a), Alias(b))
    decreases a
  {
    match a
    case Scalar(_) =>
    case List(xs) =>
      forall i | 0 <= i < |xs| ensures SameButSecrets(MARKERS, AliasItems(xs)[i], AliasItems(b.items)[i]) {
        AliasKeepsSame(xs[i], b.items[i]);
        AliasItemsAt(xs, i);
        AliasItemsAt(b.items, i);
      }
    case Object(xs) =>
      forall i | 0 <= i < |xs| && !IsSensitiveKey(MARKERS, xs[i].key)
        ensures SameButSecrets(MARKERS, Alias(xs[i].value), Alias(b.entries[i].value))
      {
        AliasKeepsSame(xs[i].value, b.entries[i].value);
      }
      AliasEntriesKeepSame(xs, b.entries, [], []);
  }

  lemma {:induction false} SanitizeEntriesEqual(markers: seq<string>, xs: Entries, ys: Entries, built: Entries)
    requires |xs| == |ys|
    requires forall i | 0 <= i < |xs| ::
               xs[i].key == ys[i].key
               && (IsSensitiveKey(markers, xs[i].key) || Sanitize(markers, xs[i].value) == Sanitize(markers, ys[i].value))
    ensures SanitizeEntries(markers, xs, built) == SanitizeEntries(markers, ys, built)
    decreases |xs|
  {
    if xs != [] {
      var key := xs[0].key;
      var shown := if IsSensitiveKey(markers, key) then REDACTED else Sanitize(markers, xs[0].value);
      SanitizeEntriesEqual(markers, xs[1..], ys[1..], Put(built, key, shown));
    }
  }

  lemma {:induction false} SanitizeItemsAt(markers: seq<string>, items: seq<Value>, i: nat)
    requires i < |items|
    ensures SanitizeItems(markers, items)[i] == Sanitize(markers, items[i])
  {
    if i > 0 {
      SanitizeItemsAt(markers, items[1..], i - 1);
    }
  }

  /** Redaction alone forgets everything under the keys its markers find. */
  lemma {:induction false} SanitizeForgetsSecrets(markers: seq<string>, a: Value, b: Value)
    requires SameButSecrets(markers, a, b)
    ensures Sanitize(markers, a) == Sanitize(markers, b)
    decreases a
  {
    match a
    case Scalar(_) =>
    case List(xs) =>
      forall i | 0 <= i < |xs| ensures SanitizeItems(markers, xs)[i] == SanitizeItems(markers, b.items)[i] {
        SanitizeForgetsSecrets(markers, xs[i], b.items[i]);
        SanitizeItemsAt(markers, xs, i);
        SanitizeItemsAt(markers, b.items, i);
      }
      assert SanitizeItems(markers, xs) == SanitizeItems(markers, b.items);
    case Object(xs) =>
      forall i | 0 <= i < |xs| && !IsSensitiveKey(markers, xs[i].key)
        ensures Sanitize(markers, xs[i].value) == Sanitize(markers, b.entries[i].value)
      {
        SanitizeForgetsSecrets(markers, xs[i].value, b.entries[i].value);
      }
      SanitizeEntriesEqual(markers, xs, b.entries, []);
  }

  /** Changing values under sensitive keys, anywhere in the arguments, never changes what is logged. */
  lemma LogIndependentOfSecrets(a: Value, b: Value)
    requires SameButSecrets(MARKERS, a, b)
    ensures Sanitize(MARKERS, Alias(a)) == Sanitize(MARKERS, Alias(b))
  {
    AliasKeepsSame(a, b);
    SanitizeForgetsSecrets(MARKERS, Alias(a), Alias(b));
  }

  // What the log form shows

  function Shown(markers: seq<string>, e: Entry): Entry {
    Entry(e.key, if IsSensitiveKey(markers, e.key) then REDACTED else Sanitize(markers, e.value))
  }

  function ShownAll(markers: seq<string>, entries: Entries): (r: Entries)
    ensures |r| == |entries|
  {
    if entries == [] then [] else [Shown(markers, entries[0])] + ShownAll(markers, entries[1..])
  }

  lemma {:induction false} ShownAllAt(markers: seq<string>, entries: Entries, i: nat)
    requires i < |entries|
    ensures ShownAll(markers, entries)[i] == Shown(markers, entries[i])
  {
    if i > 0 {
      ShownAllAt(markers, entries[1..], i - 1);
    }
  }

  ghost predicate NoSharedKey(built: Entries, entries: Entries) {
    forall i, j | 0 <= i < |built| && 0 <= j < |entries| :: built[i].key != entries[j].key
  }

  lemma SanitizeStep(markers: seq<string>, entries: Entries, built: Entries)
    requires entries != [] && NoSharedKey(built, entries)
    ensures SanitizeEntries(markers, entries, built)
            == SanitizeEntries(markers, entries[1..], built + [Shown(markers, entries[0])])
  {
    assert IndexOfKey(built, entries[0].key).None?;
  }

  lemma NoSharedKeyStep(entries: Entries, built: Entries, e: Entry)
    requires entries != [] && NoSharedKey(built, entries) && DistinctKeys(entries) && e.key == entries[0].key
    ensures NoSharedKey(built + [e], entries[1..]) && DistinctKeys(entries[1..])
  {
  }

  lemma {:induction false} SanitizeEntriesAppends(markers: seq<string>, entries: Entries, built: Entries)
    requires DistinctKeys(entries) && NoSharedKey(built, entries)
    ensures SanitizeEntries(markers, entries, built) == built + ShownAll(markers, entries)
    decreases |entries|
  {
    if entries == [] {
      assert built + [] == built;
    } else {
      var shown := Shown(markers, entries[0]);
      SanitizeStep(markers, entries, built);
      NoSharedKeyStep(entries, built, shown);
      SanitizeEntriesAppends(markers, entries[1..], built + [shown]);
      Regroup(built, shown, ShownAll(markers, entries[1..]));
    }
  }

  lemma Regroup(a: Entries, e: Entry, b: Entries)
    ensures (a + [e]) + b == a + ([e] + b)
  {
  }

  /** An object is logged entry by entry: same keys in the same order, secrets replaced, the rest sanitized. */
  lemma SanitizedObject(markers: seq<string>, entries: Entries)
    requires DistinctKeys(entries)
    ensures var r := Sanitize(markers, Object(entries));
            && |r.entries| == |entries|
            && forall i | 0 <= i < |entries| :: r.entries[i] == Shown(markers, entries[i])
  {
    SanitizeEntriesAppends(markers, entries, []);
    assert [] + ShownAll(markers, entries) == ShownAll(markers, entries);
    forall i | 0 <= i < |entries| ensures ShownAll(markers, entries)[i] == Shown(markers, entries[i]) {
      ShownAllAt(markers, entries, i);
    }
  }

  // Both spellings of the API key marker are needed

  const WITHOUT_APIKEY: seq<string> := MARKERS[..7] + MARKERS[8..]

  lemma {:induction false} AbsentFirstLetter(key: string, part: string)
    requires part != [] && forall i | 0 <= i < |key| :: ToLower(key[i]) != part[0]
    ensures !Has(key, part)
  {
    if key != [] {
      AbsentFirstLetter(key[1..], part);
    }
  }

  lemma AbsentInApiKey(part: string)
    requires |part| >= 5 && (part[0] == 'p' ==> part[1] == 'a')
    requires part[0] == 'a' ==> part[1] == 'u' || (part[1] == 'p' && part[2] == 'i' && part[3] == '_')
    requires part[0] in ['a', 'c', 'p', 's', 't']
    ensures !Has("apiKey", part)
  {
    var k := "apiKey";
    if part[0] == 'a' {
      AbsentFirstLetter(k[1..], part);
      var k1, p1 := k[1..], part[1..];
      var k2, p2 := k1[1..], p1[1..];
      if part[1] == 'p' {
        assert p2[1..][0] == '_' && ToLower(k2[1..][0]) == 'k';
        assert !Begins(k2[1..], p2[1..]);
        assert !Begins(k2, p2);
      }
      assert !Begins(k1, p1);
    } else if part[0] == 'p' {
      AbsentFirstLetter(k[2..], part);
      assert k[1..][1..] == k[2..] && part[1..][0] == 'a' && ToLower(k[2..][0]) == 'i';
      assert !Begins(k[2..], part[1..]);
      assert !Begins(k[1..], part);
    } else {
      AbsentFirstLetter(k, part);
    }
  }

  lemma ApiKeyNotFound(i: nat)
    requires i < |WITHOUT_APIKEY|
    ensures !Contains(Lower("apiKey"), WITHOUT_APIKEY[i])
  {
    AbsentInApiKey(WITHOUT_APIKEY[i]);
    HasIsContains("apiKey", WITHOUT_APIKEY[i]);
  }

  function ApiKeyArgs(secret: string): Value {
    Object([Entry("api_key", Scalar(secret))])
  }

  lemma CamelOfApiKey()
    ensures ToCamelCase("api_key") == "apiKey"
  {
    var k := "api_key";
    assert k[1..] == "pi_key" && "pi_key"[1..] == "i_key" && "i_key"[1..] == "_key";
    assert "_key"[2..] == "ey" && "ey"[1..] == "y" && "y"[1..] == "";
    assert ToCamelCase("y") == "y";
    assert ToCamelCase("ey") == "ey";
    assert ToCamelCase("_key") == "Key";
    assert ToCamelCase("i_key") == "iKey";
    assert ToCamelCase("pi_key") == "piKey";
  }

  lemma AliasedApiKeyArgs(secret: string)
    ensures Alias(ApiKeyArgs(secret)) == Object([Entry("api_key", Scalar(secret)), Entry("apiKey", Scalar(secret))])
  {
    CamelOfApiKey();
    var e := [Entry("api_key", Scalar(secret))];
    assert e[1..] == [] && [] + e == e;
    var own := Put([], "api_key", Scalar(secret));
    assert own == e;
    assert "api_key"[3] == '_' && "apiKey"[3] == 'K';
    assert IndexOfKey(own, "apiKey").None?;
    assert "apiKey" !in INHERITED;
    assert PutWithAlias([], "api_key", Scalar(secret)) == e + [Entry("apiKey", Scalar(secret))];
    assert AliasEntries(e, []) == AliasEntries([], PutWithAlias([], "api_key", Alias(Scalar(secret))));
  }

  lemma ApiKeyIsSensitive()
    ensures IsSensitiveKey(WITHOUT_APIKEY, "api_key")
    ensures !IsSensitiveKey(WITHOUT_APIKEY, "apiKey")
  {
    assert TrimJs("api_key") == "api_key" && TrimJs("apiKey") == "apiKey";
    assert Lower("api_key") == "api_key";
    assert WITHOUT_APIKEY[6] == "api_key" && "api_key"[0..] == "api_key";
    assert Contains(Lower("api_key"), WITHOUT_APIKEY[6]);
    forall i | 0 <= i < |WITHOUT_APIKEY| ensures !Contains(Lower("apiKey"), WITHOUT_APIKEY[i]) {
      ApiKeyNotFound(i);
    }
  }

  lemma SecretIsShown(secret: string)
    ensures var r := Sanitize(WITHOUT_APIKEY, Alias(ApiKeyArgs(secret)));
            r.Object? && |r.entries| == 2 && r.entries[1] == Entry("apiKey", Scalar(secret))
  {
    ApiKeyIsSensitive();
    AliasedApiKeyArgs(secret);
    assert "api_key"[3] != "apiKey"[3];
    SanitizedObject(WITHOUT_APIKEY, Alias(ApiKeyArgs(secret)).entries);
  }

  /** Without "apikey" in the list, the alias of an api_key argument carries the secret into the log. */
  lemma ApikeyMarkerIsNeeded(a: string, b: string)
    requires a != b
    ensures SameButSecrets(WITHOUT_APIKEY, ApiKeyArgs(a), ApiKeyArgs(b))
    ensures Sanitize(WITHOUT_APIKEY, Alias(ApiKeyArgs(a))) != Sanitize(WITHOUT_APIKEY, Alias(ApiKeyArgs(b)))
  {
    ApiKeyIsSensitive();
    SecretIsShown(a);
    SecretIsShown(b);
  }
}
