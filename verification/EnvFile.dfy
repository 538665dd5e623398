/**
 * The line format of the `.env` file: a loader that sets what the environment does not hold yet, and what it
 * makes of a printed list of settings, for any names and values.
 */
module EnvFile {
  import opened Wrappers
  import opened Text

  type Env = map<string, string>

  const NUL: char := 0 as char

  function StripStart(s: string, quote: char): (r: string)
    ensures |r| <= |s|
    ensures s != [] && s[0] != quote ==> r == s
  {
    if s != [] && s[0] == quote then StripStart(s[1..], quote) else s
  }

  function StripEnd(s: string, quote: char): (r: string)
    ensures |r| <= |s|
    ensures s != [] && s[|s| - 1] != quote ==> r == s
  {
    if s != [] && s[|s| - 1] == quote then StripEnd(s[..|s| - 1], quote) else s
  }

  /** Every copy of a quote at either end goes. */
  function StripQuotes(s: string, quote: char): (r: string)
    ensures |r| <= |s|
  {
    StripEnd(StripStart(s, quote), quote)
  }

  /** What is kept of the text after the equals sign. */
  function Clean(value: string): (r: string)
    ensures |r| <= |value|
  {
    StripQuotes(StripQuotes(Trim(value), '"'), '\'')
  }

  /** The name and value a line gives; None for a blank line, a comment, or a line without a name and equals sign. */
  function ParseLine(line: string): Option<(string, string)> {
    var trimmed := Trim(line);
    if trimmed == "" || trimmed[0] == '#' then None
    else
      match IndexOf(trimmed, '=')
      case None => None
      case Some(i) =>
        var name := Trim(trimmed[..i]);
        if name == "" then None else Some((name, Clean(trimmed[i + 1..])))
  }

  /** Setting a variable to a text with a NUL in its name or value aborts the program: None. */
  function LoadLine(env: Env, line: string): Option<Env> {
    match ParseLine(line)
    case None => Some(env)
    case Some((name, value)) =>
      if name in env then Some(env)
      else if NUL in name || NUL in value then None
      else Some(env[name := value])
  }

  function LoadLines(env: Env, lines: seq<string>): Option<Env>
    decreases |lines|
  {
    if lines == [] then Some(env)
    else
      match LoadLine(env, lines[0])
      case None => None
      case Some(env') => LoadLines(env', lines[1..])
  }

  /**
   * Loading a whole file. Lines end at a line feed; a carriage return before it is white space that the
   * trimming of each line removes in any case.
   */
  function Load(env: Env, text: string): Option<Env> {
    LoadLines(env, Split(text, '\n'))
  }

  /** The variables of the process. */
  class Environment {
    var vars: Env

    constructor (vars: Env)
      ensures this.vars == vars
    {
      this.vars := vars;
    }

    /** Applies every line in turn; `ok` is false when a line aborts the program. */
    method LoadEnvFile(text: string) returns (ok: bool)
      modifies this
      ensures ok ==> Load(old(vars), text) == Some(vars)
      ensures !ok ==> Load(old(vars), text) == None
    {
      var lines := Split(text, '\n');
      var i := 0;
      while i < |lines|
        invariant 0 <= i <= |lines|
        invariant LoadLines(vars, lines[i..]) == Load(old(vars), text)
      {
        var parsed := ParseLine(lines[i]);
        if parsed.Some? && parsed.value.0 !in vars {
          var (name, value) := parsed.value;
          if NUL in name || NUL in value {
            return false;
          }
          vars := vars[name := value];
        }
        i := i + 1;
      }
      ok := true;
    }
  }

  // Cleaning

  /** No white space and no quote at either end. */
  predicate Bare(v: string) {
    v != [] ==> Edge(v[0]) && Edge(v[|v| - 1])
  }

  predicate Edge(c: char) {
    !IsSpace(c) && c != '"' && c != '\''
  }

  lemma StripShortens(s: string, quote: char)
    ensures s != [] && (s[0] == quote || s[|s| - 1] == quote) ==> |StripQuotes(s, quote)| < |s|
    ensures s != [] && s[0] != quote && s[|s| - 1] != quote ==> StripQuotes(s, quote) == s
  {
    if s != [] && s[0] == quote {
      assert StripStart(s, quote) == StripStart(s[1..], quote);
    }
  }

  /** Loading keeps a value unchanged exactly when nothing at its ends would be taken off. */
  lemma CleanFixesExactlyBare(v: string)
    ensures Clean(v) == v <==> Bare(v)
  {
    TrimFixesExactlyTight(v);
    if Tight(v) {
      StripShortens(v, '"');
      StripShortens(v, '\'');
    }
  }

  lemma {:induction false} StripsOnly(s: string, quote: char, c: char)
    requires c !in s
    ensures c !in StripStart(s, quote) && c !in StripEnd(s, quote)
    decreases |s|
  {
    if s != [] {
      StripsOnly(s[1..], quote, c);
      StripsOnly(s[..|s| - 1], quote, c);
    }
  }

  lemma {:induction false} TrimsOnly(s: string, c: char)
    requires c !in s
    ensures c !in TrimStart(s) && c !in TrimEnd(s)
    decreases |s|
  {
    if s != [] {
      TrimsOnly(s[1..], c);
      TrimsOnly(s[..|s| - 1], c);
    }
  }

  /** Cleaning only removes characters. */
  lemma CleansOnly(v: string, c: char)
    requires c !in v
    ensures c !in Clean(v)
  {
    TrimsOnly(v, c);
    TrimsOnly(TrimStart(v), c);
    var t := Trim(v);
    StripsOnly(t, '"', c);
    StripsOnly(StripStart(t, '"'), '"', c);
    var u := StripQuotes(t, '"');
    StripsOnly(u, '\'', c);
    StripsOnly(StripStart(u, '\''), '\'', c);
  }

  lemma TrimStartStep(s: string)
    requires s != [] && IsSpace(s[0])
    ensures Trim(s) == Trim(s[1..])
  {
  }

  lemma TrimEndStep(s: string)
    requires s != [] && !IsSpace(s[0]) && IsSpace(s[|s| - 1])
    ensures Trim(s) == Trim(s[..|s| - 1])
  {
    assert TrimStart(s) == s;
    assert |s| > 1 && TrimStart(s[..|s| - 1]) == s[..|s| - 1];
  }

  lemma {:induction false} TrimAppendSpace(s: string, c: char)
    requires IsSpace(c)
    ensures Trim(s + [c]) == Trim(s)
  {
    var longer := s + [c];
    if s == [] {
      TrimStartStep(longer);
      assert longer[1..] == s;
    } else if IsSpace(s[0]) {
      TrimStartStep(longer);
      TrimStartStep(s);
      assert longer[1..] == s[1..] + [c];
      TrimAppendSpace(s[1..], c);
    } else {
      TrimEndStep(longer);
      assert longer[..|longer| - 1] == s;
    }
  }

  lemma {:induction false} TrimTrimEnd(s: string)
    ensures Trim(TrimEnd(s)) == Trim(s)
  {
    if s != [] && IsSpace(s[|s| - 1]) {
      TrimTrimEnd(s[..|s| - 1]);
      TrimAppendSpace(s[..|s| - 1], s[|s| - 1]);
      assert s[..|s| - 1] + [s[|s| - 1]] == s;
    }
  }

  // Lines

  /** A name that the format leaves alone. */
  predicate GoodName(name: string) {
    && name != []
    && !IsSpace(name[0]) && !IsSpace(name[|name| - 1])
    && name[0] != '#'
    && '=' !in name && '\n' !in name && NUL !in name
  }

  function Line(name: string, value: string): string {
    name + "=" + value
  }

  lemma LineParses(name: string, value: string)
    requires GoodName(name)
    ensures ParseLine(Line(name, value)) == Some((name, Clean(value)))
  {
    var line := Line(name, value);
    var front := name + "=";
    assert line[0] == name[0] && line == front + value;
    TrimEndAppend(front, value);
    var trimmed := Trim(line);
    assert trimmed == name + ['='] + TrimEnd(value);
    IndexOfAppend(name, '=', TrimEnd(value));
    assert trimmed[..|name|] == name && trimmed[|name| + 1..] == TrimEnd(value);
    TrimFixesExactlyTight(name);
    TrimTrimEnd(value);
  }

  lemma CommentIsSkipped(line: string)
    requires line != [] && line[0] == '#'
    ensures ParseLine(line) == None
  {
    assert TrimStart(line) == line;
    if Trim(line) != [] {
      assert TrimEnd(line) <= line;
    }
  }

  /** Lines without a line feed never give a value with one. */
  lemma LineGivesNoBreak(line: string)
    requires '\n' !in line
    ensures ParseLine(line).Some? ==> '\n' !in ParseLine(line).value.1
  {
    TrimsOnly(line, '\n');
    TrimsOnly(TrimStart(line), '\n');
    var trimmed := Trim(line);
    var i := IndexOf(trimmed, '=');
    if i.Some? {
      CleansOnly(trimmed[i.value + 1..], '\n');
    }
  }

  predicate HasNoBreak(env: Env, name: string) {
    name in env ==> '\n' !in env[name]
  }

  /** Whatever the file says, a variable it sets gets a value without line feeds. */
  lemma {:induction false} LoadedValuesHaveNoBreak(env: Env, lines: seq<string>, name: string)
    requires forall i | 0 <= i < |lines| :: '\n' !in lines[i]
    requires HasNoBreak(env, name)
    requires LoadLines(env, lines).Some?
    ensures HasNoBreak(LoadLines(env, lines).value, name)
    decreases |lines|
  {
    if lines != [] {
      LineGivesNoBreak(lines[0]);
      LoadedValuesHaveNoBreak(LoadLine(env, lines[0]).value, lines[1..], name);
    }
  }

  // A printed list

  type Entries = seq<(string, string)>

  /** One line for each entry, then a last line. */
  function Print(entries: Entries, last: string): string {
    if entries == [] then last + "\n"
    else Line(entries[0].0, entries[0].1) + "\n" + Print(entries[1..], last)
  }

  /** Good names, none twice and none in the environment, and values of one line each. */
  predicate Printable(entries: Entries, env: Env) {
    && (forall i | 0 <= i < |entries| :: GoodName(entries[i].0) && entries[i].0 !in env && '\n' !in entries[i].1)
    && (forall i, j | 0 <= i < j < |entries| :: entries[i].0 != entries[j].0)
  }

  predicate NoNul(entries: Entries) {
    forall i | 0 <= i < |entries| :: NUL !in Clean(entries[i].1)
  }

  predicate Holds(env: Env, entries: Entries) {
    forall i | 0 <= i < |entries| :: entries[i].0 in env && env[entries[i].0] == Clean(entries[i].1)
  }

  lemma PrintedFirstLine(entries: Entries, last: string)
    requires entries != [] && '\n' !in Line(entries[0].0, entries[0].1)
    ensures Split(Print(entries, last), '\n')
            == [Line(entries[0].0, entries[0].1)] + Split(Print(entries[1..], last), '\n')
  {
    var line := Line(entries[0].0, entries[0].1);
    assert Print(entries, last) == line + ['\n'] + Print(entries[1..], last);
    SplitAppend(line, '\n', Print(entries[1..], last));
    SplitWhole(line, '\n');
  }

  lemma LastLineLoads(env: Env, last: string)
    requires StartsWith(last, '#') && '\n' !in last
    ensures Load(env, last + "\n") == Some(env)
  {
    assert last + "\n" == last + ['\n'] + "";
    SplitAppend(last, '\n', "");
    SplitWhole(last, '\n');
    CommentIsSkipped(last);
    var lines := Split(last + "\n", '\n');
    assert lines == [last, ""];
    assert lines[1..] == [""] && lines[1..][1..] == [];
    assert ParseLine("") == None;
    assert LoadLine(env, "") == Some(env);
    assert LoadLines(env, lines[1..]) == Some(env);
  }

  predicate Extends(env: Env, more: Env) {
    forall name | name in env :: name in more && more[name] == env[name]
  }

  function Names(entries: Entries): set<string> {
    set i | 0 <= i < |entries| :: entries[i].0
  }

  lemma FirstName(entries: Entries)
    requires entries != []
    ensures Names(entries) == {entries[0].0} + Names(entries[1..])
  {
    var rest := entries[1..];
    forall name | name in Names(entries) ensures name in {entries[0].0} + Names(rest) {
      var i :| 0 <= i < |entries| && entries[i].0 == name;
      if i > 0 {
        assert rest[i - 1].0 == name;
      }
    }
    forall name | name in Names(rest) ensures name in Names(entries) {
      var i :| 0 <= i < |rest| && rest[i].0 == name;
      assert entries[i + 1].0 == name;
    }
  }

  lemma PrintedHeadLoads(env: Env, entries: Entries, last: string)
    requires entries != [] && GoodName(entries[0].0) && entries[0].0 !in env && '\n' !in entries[0].1
    ensures Load(env, Print(entries, last))
            == if NUL in Clean(entries[0].1) then None
               else Load(env[entries[0].0 := Clean(entries[0].1)], Print(entries[1..], last))
  {
    var (name, value) := entries[0];
    PrintedFirstLine(entries, last);
    LineParses(name, value);
    var lines := Split(Print(entries, last), '\n');
    assert lines[1..] == Split(Print(entries[1..], last), '\n');
  }

  lemma RestIsPrintable(env: Env, entries: Entries, value: string)
    requires entries != [] && Printable(entries, env)
    ensures Printable(entries[1..], env[entries[0].0 := value])
  {
    var rest := entries[1..];
    forall i | 0 <= i < |rest|
      ensures GoodName(rest[i].0) && rest[i].0 !in env[entries[0].0 := value] && '\n' !in rest[i].1
    {
      assert rest[i] == entries[i + 1];
    }
  }

  lemma HoldsWithFirst(entries: Entries, env: Env)
    requires entries != [] && Holds(env, entries[1..])
    requires entries[0].0 in env && env[entries[0].0] == Clean(entries[0].1)
    ensures Holds(env, entries)
  {
    forall i | 0 <= i < |entries| ensures entries[i].0 in env && env[entries[i].0] == Clean(entries[i].1) {
      if i > 0 {
        assert entries[i] == entries[1..][i - 1];
      }
    }
  }

  lemma NoNulSplits(entries: Entries)
    requires entries != []
    ensures NoNul(entries) <==> NUL !in Clean(entries[0].1) && NoNul(entries[1..])
  {
    assert forall i | 0 < i < |entries| :: entries[i] == entries[1..][i - 1];
    if NUL !in Clean(entries[0].1) && NoNul(entries[1..]) {
      forall i | 0 <= i < |entries| ensures NUL !in Clean(entries[i].1) {
        if i > 0 {
          assert entries[i] == entries[1..][i - 1];
        }
      }
    }
  }

  /**
   * Loading a printed list gives every name its cleaned value, changes no other variable and adds none; it aborts
   * exactly when a cleaned value holds a NUL.
   */
  lemma {:induction false} PrintedListLoads(env: Env, entries: Entries, last: string)
    requires Printable(entries, env)
    requires StartsWith(last, '#') && '\n' !in last
    ensures var r := Load(env, Print(entries, last));
            && (r.Some? <==> NoNul(entries))
            && (r.Some? ==> Holds(r.value, entries) && Extends(env, r.value) && r.value.Keys == env.Keys + Names(entries))
    decreases |entries|
  {
    if entries == [] {
      LastLineLoads(env, last);
    } else {
      FirstName(entries);
      PrintedHeadLoads(env, entries, last);
      NoNulSplits(entries);
      var (name, value) := entries[0];
      if NUL !in Clean(value) {
        var env' := env[name := Clean(value)];
        RestIsPrintable(env, entries, Clean(value));
        PrintedListLoads(env', entries[1..], last);
        var r := Load(env, Print(entries, last));
        if r.Some? {
          assert name in env';
          HoldsWithFirst(entries, r.value);
        }
      }
    }
  }

  // A value that holds a line

  /** A line feed in a value, followed by a line, prints like an entry of its own. */
  lemma {:induction false} LineInValue(before: Entries, name: string, value: string, more: (string, string), after: Entries, last: string)
    ensures Print(before + [(name, value + "\n" + Line(more.0, more.1))] + after, last)
            == Print(before + [(name, value), more] + after, last)
    decreases |before|
  {
    var long, short := before + [(name, value + "\n" + Line(more.0, more.1))] + after, before + [(name, value), more] + after;
    if before == [] {
      assert long[1..] == after && short[1..] == [more] + after && ([more] + after)[1..] == after;
      assert Print([more] + after, last) == Line(more.0, more.1) + "\n" + Print(after, last);
      assert Line(name, value + "\n" + Line(more.0, more.1)) == Line(name, value) + "\n" + Line(more.0, more.1);
    } else {
      assert long[1..] == before[1..] + [(name, value + "\n" + Line(more.0, more.1))] + after;
      assert short[1..] == before[1..] + [(name, value), more] + after;
      LineInValue(before[1..], name, value, more, after, last);
    }
  }

  /** Every name a line sets is one the format leaves alone, unless it holds a NUL. */
  lemma LineGivesGoodName(line: string)
    requires '\n' !in line && ParseLine(line).Some? && NUL !in ParseLine(line).value.0
    ensures GoodName(ParseLine(line).value.0)
  {
    TrimsOnly(line, '\n');
    TrimsOnly(TrimStart(line), '\n');
    var trimmed := Trim(line);
    var i := IndexOf(trimmed, '=').value;
    var raw := trimmed[..i];
    TrimsOnly(raw, '\n');
    TrimsOnly(TrimStart(raw), '\n');
    TrimsOnly(raw, '=');
    TrimsOnly(TrimStart(raw), '=');
    assert raw[0] == trimmed[0];
    assert TrimStart(raw) == raw;
  }

  /** Hence every variable that a file adds has a good name. */
  lemma {:induction false} AddedNamesAreGood(env: Env, lines: seq<string>, name: string)
    requires forall i | 0 <= i < |lines| :: '\n' !in lines[i]
    requires LoadLines(env, lines).Some? && name in LoadLines(env, lines).value && name !in env
    ensures GoodName(name)
    decreases |lines|
  {
    var next := LoadLine(env, lines[0]).value;
    if name in next {
      LineGivesGoodName(lines[0]);
    } else {
      AddedNamesAreGood(next, lines[1..], name);
    }
  }
}
