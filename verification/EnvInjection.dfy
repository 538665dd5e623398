/**
 * What else a saved settings file can set. Texts are written without escaping, so a text with a line feed adds
 * lines of its own to the file.
 */
module EnvInjection {
  import opened Wrappers
  import opened Text
  import opened EnvFile
  import opened SettingNames
  import opened RuntimeConfig
  import opened EnvWriting
  import opened EnvRoundTrip

  ghost predicate IsSetting(name: string) {
    exists k: Key :: Name(k) == name
  }

  lemma WrittenNames(s: Settings, name: string)
    ensures name in Names(Written(s)) <==> IsSetting(name)
  {
    if name in Names(Written(s)) {
      var i :| 0 <= i < |Written(s)| && Written(s)[i].0 == name;
      assert Name(KeyAt(i)) == name;
    }
    if IsSetting(name) {
      var k: Key :| Name(k) == name;
      ListedOnce(k, Place(k));
      assert Written(s)[Place(k)] == (Name(k), Shown(s, k));
    }
  }

  /** Texts of one line each: the file of the settings can be loaded as a printed list. */
  lemma WrittenListLoads(s: Settings, env: Env)
    requires forall k: Key :: Name(k) !in env
    requires Texts(s, t => OneLine(t))
    ensures Printable(Written(s), env)
    ensures Load(env, WriteEnvFile(s)) == Load(env, Print(Written(s), LAST))
  {
    PrintsOneLine();
    ShownByText(s, t => OneLine(t));
    WrittenIsPrintable(s, env);
    FirstLineIsSkipped(env, Print(Written(s), LAST));
  }

  /** If every text is on one line, the file adds the 54 settings to the environment and nothing else. */
  lemma OneLineTextsSetOnlySettings(s: Settings, env: Env, name: string)
    requires forall k: Key :: Name(k) !in env
    requires Texts(s, t => OneLine(t))
    requires Load(env, WriteEnvFile(s)).Some?
    ensures name in Load(env, WriteEnvFile(s)).value <==> name in env || IsSetting(name)
  {
    WrittenListLoads(s, env);
    LastLineIsOneLine();
    PrintedListLoads(env, Written(s), LAST);
    WrittenNames(s, name);
  }

  // A text with a line feed

  /** The settings with another line in the text of their API token. */
  function WithLine(s: Settings, name: string, value: string): Settings {
    s.(api := s.api.(token := s.api.token + "\n" + Line(name, value)))
  }

  const TOKEN: Key := Api(ApiKey.Token)

  lemma WithLineShows(s: Settings, name: string, value: string, k: Key)
    ensures Shown(WithLine(s, name, value), k)
            == if k == TOKEN then s.api.token + "\n" + Line(name, value) else Shown(s, k)
  {
  }

  function Insert(entries: Entries, i: nat, entry: (string, string)): Entries
    requires i <= |entries|
  {
    entries[..i] + [entry] + entries[i..]
  }

  /** The list that such a file amounts to. */
  function Injected(s: Settings, name: string, value: string): Entries {
    Insert(Written(s), Place(TOKEN) + 1, (name, value))
  }

  lemma FilePrintsInjected(s: Settings, name: string, value: string)
    ensures Print(Written(WithLine(s, name, value)), LAST) == Print(Injected(s, name, value), LAST)
  {
    var i, w, w' := Place(TOKEN), Written(s), Written(WithLine(s, name, value));
    ListedOnce(TOKEN, i);
    var text := s.api.token + "\n" + Line(name, value);
    forall j | 0 <= j < COUNT ensures w'[j] == if j == i then (Name(TOKEN), text) else w[j] {
      ListedOnce(TOKEN, j);
      WithLineShows(s, name, value, KeyAt(j));
    }
    assert w' == w[..i] + [(Name(TOKEN), text)] + w[i + 1..];
    assert w[i] == (Name(TOKEN), s.api.token);
    assert Injected(s, name, value) == w[..i] + [(Name(TOKEN), s.api.token), (name, value)] + w[i + 1..];
    LineInValue(w[..i], Name(TOKEN), s.api.token, (name, value), w[i + 1..], LAST);
  }

  // An entry inserted into a list

  predicate Without(entries: Entries, name: string) {
    forall i | 0 <= i < |entries| :: entries[i].0 != name
  }

  lemma RestIsWithout(entries: Entries, name: string)
    requires entries != [] && Without(entries, name)
    ensures entries[0].0 != name && Without(entries[1..], name)
  {
    assert forall i | 0 <= i < |entries| - 1 :: entries[1..][i] == entries[i + 1];
  }

  function Setting(env: Option<Env>, name: string, value: string): Option<Env> {
    match env
    case None => None
    case Some(e) => Some(e[name := value])
  }

  /** A variable that a list does not name passes through its loading. */
  lemma {:induction false} OtherVariable(env: Env, name: string, value: string, entries: Entries, last: string)
    requires Printable(entries, env) && Without(entries, name) && name !in env
    requires StartsWith(last, '#') && '\n' !in last
    ensures Load(env[name := value], Print(entries, last)) == Setting(Load(env, Print(entries, last)), name, value)
    decreases |entries|
  {
    if entries == [] {
      LastLineLoads(env, last);
      LastLineLoads(env[name := value], last);
    } else {
      var (first, text) := entries[0];
      RestIsWithout(entries, name);
      PrintedHeadLoads(env, entries, last);
      PrintedHeadLoads(env[name := value], entries, last);
      if NUL !in Clean(text) {
        RestIsPrintable(env, entries, Clean(text));
        OtherVariable(env[first := Clean(text)], name, value, entries[1..], last);
        assert env[name := value][first := Clean(text)] == env[first := Clean(text)][name := value];
      }
    }
  }

  /** Loading a list with an entry put into it is loading the list and then setting that name. */
  lemma {:induction false} InsertedLoads(
      left: Entries, name: string, value: string, right: Entries, env: Env, last: string)
    requires Printable(left + right, env) && Without(left + right, name)
    requires GoodName(name) && name !in env && '\n' !in value && NUL !in Clean(value)
    requires StartsWith(last, '#') && '\n' !in last
    ensures Load(env, Print(left + [(name, value)] + right, last))
            == Setting(Load(env, Print(left + right, last)), name, Clean(value))
    decreases |left|
  {
    var longer, shorter := left + [(name, value)] + right, left + right;
    if left == [] {
      assert shorter == right && longer[0] == (name, value) && longer[1..] == right;
      PrintedHeadLoads(env, longer, last);
      OtherVariable(env, name, Clean(value), right, last);
    } else {
      var (first, text) := left[0];
      assert shorter[0] == longer[0] == left[0] && shorter[1..] == left[1..] + right;
      assert longer[1..] == left[1..] + [(name, value)] + right;
      RestIsWithout(shorter, name);
      PrintedHeadLoads(env, shorter, last);
      PrintedHeadLoads(env, longer, last);
      if NUL !in Clean(text) {
        RestIsPrintable(env, shorter, Clean(text));
        InsertedLoads(left[1..], name, value, right, env[first := Clean(text)], last);
      }
    }
  }

  lemma InsertedAfter(
      entries: Entries, i: nat, name: string, value: string, env: Env, last: string)
    requires i <= |entries| && Printable(entries, env) && Without(entries, name)
    requires GoodName(name) && name !in env && '\n' !in value && NUL !in Clean(value)
    requires StartsWith(last, '#') && '\n' !in last
    ensures Load(env, Print(Insert(entries, i, (name, value)), last))
            == Setting(Load(env, Print(entries, last)), name, Clean(value))
  {
    assert entries[..i] + entries[i..] == entries;
    InsertedLoads(entries[..i], name, value, entries[i..], env, last);
  }

  // Injection

  lemma WithLineIsNormal(s: Settings, name: string, value: string)
    requires IsNormal(s)
    ensures IsNormal(WithLine(s, name, value))
  {
  }

  /**
   * For every normal record with one-line texts and every good name that is no setting, a normal record that differs
   * in its API token alone sets that name, and otherwise loads as the first.
   */
  lemma TokenSetsAnyName(s: Settings, env: Env, name: string, value: string)
    requires IsNormal(s) && Texts(s, t => OneLine(t))
    requires forall k: Key :: Name(k) !in env
    requires GoodName(name) && name !in env && !IsSetting(name) && OneLine(value) && NUL !in Clean(value)
    ensures IsNormal(WithLine(s, name, value))
    ensures Load(env, WriteEnvFile(WithLine(s, name, value))) == Setting(Load(env, WriteEnvFile(s)), name, Clean(value))
  {
    WithLineIsNormal(s, name, value);
    FileIsInjected(s, env, name, value);
    InjectedLoads(s, env, name, value);
  }

  lemma InjectedLoads(s: Settings, env: Env, name: string, value: string)
    requires Texts(s, t => OneLine(t))
    requires forall k: Key :: Name(k) !in env
    requires GoodName(name) && name !in env && !IsSetting(name) && OneLine(value) && NUL !in Clean(value)
    ensures Load(env, Print(Injected(s, name, value), LAST)) == Setting(Load(env, WriteEnvFile(s)), name, Clean(value))
  {
    WrittenListLoads(s, env);
    OtherNameIsWithout(s, name);
    LastLineIsOneLine();
    InsertedAfter(Written(s), Place(TOKEN) + 1, name, value, env, LAST);
  }

  lemma OtherNameIsWithout(s: Settings, name: string)
    requires !IsSetting(name)
    ensures Without(Written(s), name)
  {
    WrittenNames(s, name);
    forall j | 0 <= j < |Written(s)| ensures Written(s)[j].0 != name {
      assert Written(s)[j].0 in Names(Written(s));
    }
  }

  lemma FileIsInjected(s: Settings, env: Env, name: string, value: string)
    ensures Load(env, WriteEnvFile(WithLine(s, name, value))) == Load(env, Print(Injected(s, name, value), LAST))
  {
    FilePrintsInjected(s, name, value);
    FirstLineIsSkipped(env, Print(Written(WithLine(s, name, value)), LAST));
  }

  /** A normal record with the same text everywhere. */
  function Uniform(t: string): Settings {
    Settings(ApiSettings(t, 1, t, t, false, false, false, false, false, t, t, false, false, 1000, t, false, t),
             WebSettings(false, false, t, 1), Address(t, 1), Address(t, 1),
             WebhookSettings(false, false, t, 1, t, false, t, t, false, false),
             WebSocketSettings(false, false, t, 1, t, false, t, t, t, false, false, 1),
             DesktopSettings(false, false, false, false, false, t))
  }

  lemma UniformIsNormal()
    ensures IsNormal(Uniform("/")) && Texts(Uniform("/"), t => Safe(t))
  {
    RootedIsNotBlank("/");
    TrimFixesExactlyTight("/");
    NothingLongInside("/", "127.0.0.1:61001");
    NothingLongInside("/", "0.0.0.0");
    NothingLongInside("/", "[::]");
  }

  lemma {:induction false} NothingLongInside(s: string, part: string)
    requires |s| < |part|
    ensures !Contains(s, part)
    decreases |s|
  {
    if s != [] {
      NothingLongInside(s[1..], part);
    }
  }

  /** The names that the file of some normal record sets. */
  ghost predicate CanBeSet(env: Env, name: string) {
    exists s: Settings ::
      IsNormal(s) && Load(env, WriteEnvFile(s)).Some? && name in Load(env, WriteEnvFile(s)).value
  }

  lemma SetNamesAreGood(env: Env, name: string)
    requires CanBeSet(env, name) && name !in env
    ensures GoodName(name)
  {
    var s: Settings :| IsNormal(s) && Load(env, WriteEnvFile(s)).Some? && name in Load(env, WriteEnvFile(s)).value;
    AddedNamesAreGood(env, Split(WriteEnvFile(s), '\n'), name);
  }

  lemma GoodNamesAreSet(env: Env, s: Settings, name: string)
    requires forall k: Key :: Name(k) !in env
    requires IsNormal(s) && Texts(s, t => OneLine(t)) && Load(env, WriteEnvFile(s)).Some?
    requires GoodName(name) && name !in env
    ensures CanBeSet(env, name)
  {
    if IsSetting(name) {
      OneLineTextsSetOnlySettings(s, env, name);
    } else {
      CleanFixesExactlyBare("");
      TokenSetsAnyName(s, env, name, "");
      assert name in Load(env, WriteEnvFile(WithLine(s, name, ""))).value;
    }
  }

  /** Besides what the environment has, the files of normal records set exactly the good names, settings or not. */
  lemma CanBeSetIffGood(env: Env, name: string)
    requires forall k: Key :: Name(k) !in env
    requires name !in env
    ensures CanBeSet(env, name) <==> GoodName(name)
  {
    if CanBeSet(env, name) {
      SetNamesAreGood(env, name);
    }
    if GoodName(name) {
      UniformIsNormal();
      UniformLoads(env);
      GoodNamesAreSet(env, Uniform("/"), name);
    }
  }

  lemma UniformLoads(env: Env)
    requires forall k: Key :: Name(k) !in env
    ensures Texts(Uniform("/"), t => OneLine(t)) && Load(env, WriteEnvFile(Uniform("/"))).Some?
  {
    UniformIsNormal();
    RoundTripIffSafe(Uniform("/"), env);
    SafeTexts(Uniform("/"));
  }
}
