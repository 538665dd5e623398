/** Lists over several lines of a whole text: they read as one line with all values. */
module WgQuickLists {
  import opened Wrappers
  import opened Text
  import opened WgQuickParser
  import opened WgQuickMeaning
  import opened WgQuickPrinter

  // Cutting a text after a line feed

  /** The lines of a text to which a line feed is added; a carriage return at its end joins that line end. */
  function LinesBefore(s: string): (r: seq<string>)
    ensures |r| >= 1
  {
    if s == [] || s == "\r" then [""]
    else if s[0] == '\r' && s[1] == '\n' then [""] + LinesBefore(s[2..])
    else
      var rest := LinesBefore(s[1..]);
      if IsNewline(s[0]) then [""] + rest else [[s[0]] + rest[0]] + rest[1..]
  }

  lemma LinesUnfold(s: string)
    requires s != []
    ensures Lines(s)
            == if |s| > 1 && s[0] == '\r' && s[1] == '\n' then [""] + Lines(s[2..])
               else if IsNewline(s[0]) then [""] + Lines(s[1..])
               else [[s[0]] + Lines(s[1..])[0]] + Lines(s[1..])[1..]
  {
  }

  lemma {:induction false} CutAfterLineFeed(before: string, rest: string)
    ensures Lines(before + "\n" + rest) == LinesBefore(before) + Lines(rest)
  {
    var whole := before + "\n" + rest;
    LinesUnfold(whole);
    if before == [] {
      assert whole[0] == '\n' && whole[1..] == rest;
    } else if before == "\r" {
      assert whole[0] == '\r' && whole[1] == '\n' && whole[2..] == rest;
    } else if before[0] == '\r' && before[1] == '\n' {
      assert whole[2..] == before[2..] + "\n" + rest;
      CutAfterLineFeed(before[2..], rest);
      assert [""] + (LinesBefore(before[2..]) + Lines(rest)) == [""] + LinesBefore(before[2..]) + Lines(rest);
    } else {
      assert whole[0] == before[0] && whole[1..] == before[1..] + "\n" + rest;
      assert |before| > 1 ==> whole[1] == before[1];
      CutAfterLineFeed(before[1..], rest);
      if IsNewline(before[0]) {
        assert [""] + (LinesBefore(before[1..]) + Lines(rest)) == [""] + LinesBefore(before[1..]) + Lines(rest);
      } else {
        GrowFirst([before[0]], LinesBefore(before[1..]), Lines(rest));
      }
    }
  }

  // Runs in two parts

  /** Steps over lines with their numbers, until one fails. */
  function Steps<S, E>(step: (S, nat, string) -> Result<S, E>, st: Result<S, E>, number: nat, lines: seq<string>): Result<S, E>
    decreases |lines|
  {
    if lines == [] || st.Err? then st
    else Steps(step, step(st.value, number, lines[0]), number + 1, lines[1..])
  }

  lemma {:induction false} StepsInTwo<S, E>(step: (S, nat, string) -> Result<S, E>, st: Result<S, E>, number: nat,
                                            first: seq<string>, rest: seq<string>)
    ensures Steps(step, st, number, first + rest) == Steps(step, Steps(step, st, number, first), number + |first|, rest)
    decreases |first|
  {
    if first == [] {
      assert first + rest == rest;
    } else if st.Ok? {
      assert (first + rest)[0] == first[0] && (first + rest)[1..] == first[1..] + rest;
      StepsInTwo(step, step(st.value, number, first[0]), number + 1, first[1..], rest);
    }
  }

  function StepOf<V>(lib: Library<V>): (State<V>, nat, string) -> Result<State<V>, ParseError> {
    (st: State<V>, number: nat, line: string) => Step(lib, st, number, line)
  }

  lemma {:induction false} RunIsSteps<V>(lib: Library<V>, st: State<V>, number: nat, lines: seq<string>)
    ensures Run(lib, st, number, lines) == Steps(StepOf(lib), Ok(st), number, lines)
    decreases |lines|
  {
    if lines != [] {
      var next := Step(lib, st, number, lines[0]);
      if next.Ok? {
        RunIsSteps(lib, next.value, number + 1, lines[1..]);
      }
    }
  }

  /** A run goes on from where another ended. */
  function RunFurther<V>(lib: Library<V>, st: Result<State<V>, ParseError>, number: nat, lines: seq<string>)
    : Result<State<V>, ParseError>
  {
    match st
    case Err(e) => Err(e)
    case Ok(st') => Run(lib, st', number, lines)
  }

  lemma RunInTwo<V>(lib: Library<V>, st: State<V>, number: nat, first: seq<string>, rest: seq<string>)
    ensures Run(lib, st, number, first + rest) == RunFurther(lib, Run(lib, st, number, first), number + |first|, rest)
  {
    RunIsSteps(lib, st, number, first + rest);
    RunIsSteps(lib, st, number, first);
    StepsInTwo(StepOf(lib), Ok(st), number, first, rest);
    var middle := Run(lib, st, number, first);
    if middle.Ok? {
      RunIsSteps(lib, middle.value, number + |first|, rest);
    }
  }

  // One line of a list

  /** A value as it stands after the equals sign: nothing to trim, no comment, one line. It may be empty. */
  predicate IsValue(v: string) {
    Tight(v) && '#' !in v && NoLineEnd(v)
  }

  function ListLine(k: Key, v: string): string {
    ShownName(k) + " = " + v
  }

  lemma ListLineClassifies<V>(lib: Library<V>, k: Key, v: string)
    requires LowersNames(lib.lower) && IsValue(v)
    ensures Classify(lib, ListLine(k, v)) == Line(Entry(ShownName(k), v)) && NoLineEnd(ListLine(k, v))
  {
    NamesAreLetters(k);
    LettersAreClean(ShownName(k));
    if v == "" {
      EmptyValueClassifies(lib, ShownName(k));
      assert ListLine(k, v) == ShownName(k) + " = ";
    } else {
      EntryClassifies(lib, Entry(ShownName(k), v));
    }
  }

  lemma EmptyValueLine(name: string)
    requires Clean(name)
    ensures var raw, line := name + " = ", name + " =";
            && '#' !in raw && NoLineEnd(raw) && raw == line + " " && Tight(line)
            && line == (name + " ") + ['='] + "" && '=' in line
            && line[..|name| + 1] == name + " " && line[|name| + 2..] == ""
  {
    var line := name + " =";
    assert line[|name| + 1] == '=';
  }

  lemma EmptyValueClassifies<V>(lib: Library<V>, name: string)
    requires LowersNames(lib.lower) && Clean(name) && '=' !in name
    ensures Classify(lib, name + " = ") == Line(Entry(name, "")) && NoLineEnd(name + " = ")
  {
    var raw, line := name + " = ", name + " =";
    EmptyValueLine(name);
    NoComment(raw);
    TrimAfter(line);
    LoweredIsNoHeader(lib.lower, line);
    IndexOfAppend(name + " ", '=', "");
    TrimAfter(name);
  }

  lemma JoinIsValue(a: string, b: string)
    requires IsValue(a) && IsValue(b)
    ensures IsValue(a + "," + b)
  {
    var j := a + "," + b;
    assert j[0] == if a == "" then ',' else a[0];
    assert j[|j| - 1] == if b == "" then ',' else b[|b| - 1];
  }

  lemma ListLineHasKey<V>(lib: Library<V>, section: Section, k: Key, v: string)
    requires LowersNames(lib.lower)
    ensures KeyOf(lib, section, Entry(ShownName(k), v)) == if SectionOf(k) == section then Some(k) else None
  {
    assert LowersName(lib.lower, k);
  }

  // The whole text

  /** Lines that no section takes, or a section of the other kind, are refused. */
  lemma RefusedLine<V>(lib: Library<V>, st: State<V>, number: nat, k: Key, v: string, rest: seq<string>)
    requires LowersNames(lib.lower) && IsValue(v)
    requires st.section != Some(SectionOf(k))
    ensures Rest(lib, st, number, [ListLine(k, v)] + rest).Err?
  {
    var lines := [ListLine(k, v)] + rest;
    ListLineClassifies(lib, k, v);
    RestStep(lib, st, number, lines);
    if st.section.Some? {
      ListLineHasKey(lib, st.section.value, k, v);
    }
  }

  lemma ListAfter<V>(lib: Library<V>, st: State<V>, number: nat, k: Key, a: string, b: string, rest: seq<string>)
    requires LowersNames(lib.lower) && IsList(k) && IsValue(a) && IsValue(b)
    ensures Accepted(Rest(lib, st, number, [ListLine(k, a)] + ([ListLine(k, b)] + rest)))
            == Accepted(Rest(lib, st, number, [ListLine(k, a + "," + b)] + rest))
  {
    JoinIsValue(a, b);
    if st.section == Some(SectionOf(k)) {
      ListLineClassifies(lib, k, a);
      ListLineClassifies(lib, k, b);
      ListLineClassifies(lib, k, a + "," + b);
      ListLineHasKey(lib, SectionOf(k), k, a);
      ListLineHasKey(lib, SectionOf(k), k, b);
      ListLineHasKey(lib, SectionOf(k), k, a + "," + b);
      RepeatedListIsJoined(lib, st, number, ListLine(k, a), ListLine(k, b), ListLine(k, a + "," + b), rest,
                           Entry(ShownName(k), a), Entry(ShownName(k), b), Entry(ShownName(k), a + "," + b), k);
    } else {
      RefusedLine(lib, st, number, k, a, [ListLine(k, b)] + rest);
      RefusedLine(lib, st, number, k, a + "," + b, rest);
    }
  }

  /** What a text after a line feed is parsed to, from where the lines before it lead. */
  function ParsedAfter<V>(lib: Library<V>, before: string, lines: seq<string>): Result<Configuration<V>, ParseError> {
    RestAfter(lib, Run(lib, Initial(), 1, LinesBefore(before)), 1 + |LinesBefore(before)|, lines)
  }

  function RestAfter<V>(lib: Library<V>, st: Result<State<V>, ParseError>, number: nat, lines: seq<string>)
    : Result<Configuration<V>, ParseError>
  {
    match st
    case Err(e) => Err(e)
    case Ok(st') => Rest(lib, st', number, lines)
  }

  lemma RestInTwo<V>(lib: Library<V>, st: State<V>, number: nat, first: seq<string>, rest: seq<string>)
    ensures Rest(lib, st, number, first + rest) == RestAfter(lib, Run(lib, st, number, first), number + |first|, rest)
  {
    RunInTwo(lib, st, number, first, rest);
  }

  lemma ParsedLines<V>(lib: Library<V>, source: string, first: seq<string>, rest: seq<string>)
    requires Lines(source) == first + rest
    ensures Parsed(lib, source) == RestAfter(lib, Run(lib, Initial(), 1, first), 1 + |first|, rest)
  {
    RestInTwo(lib, Initial(), 1, first, rest);
  }

  lemma ParsedInTwo<V>(lib: Library<V>, before: string, text: string)
    ensures Parsed(lib, before + "\n" + text) == ParsedAfter(lib, before, Lines(text))
  {
    CutAfterLineFeed(before, text);
    ParsedLines(lib, before + "\n" + text, LinesBefore(before), Lines(text));
  }

  lemma ListLineFirst(k: Key, v: string, after: string)
    requires NoLineEnd(ListLine(k, v))
    ensures Lines(ListLine(k, v) + "\n" + after) == [ListLine(k, v)] + Lines(after)
  {
    FirstLine(ListLine(k, v), after);
  }

  /**
   * In any text, between any texts, two list lines in a row give the same configuration, or are refused alike,
   * as one line with both values: "Address = a" and "Address = b" read as "Address = a,b".
   */
  lemma RepeatedListInText<V>(lib: Library<V>, before: string, k: Key, a: string, b: string, after: string)
    requires LowersNames(lib.lower) && IsList(k) && IsValue(a) && IsValue(b)
    ensures Accepted(Parsed(lib, before + "\n" + (ListLine(k, a) + "\n" + (ListLine(k, b) + "\n" + after))))
            == Accepted(Parsed(lib, before + "\n" + (ListLine(k, a + "," + b) + "\n" + after)))
  {
    JoinIsValue(a, b);
    ListLineClassifies(lib, k, a);
    ListLineClassifies(lib, k, b);
    ListLineClassifies(lib, k, a + "," + b);
    var second := ListLine(k, b) + "\n" + after;
    ListLineFirst(k, b, after);
    ListLineFirst(k, a, second);
    ListLineFirst(k, a + "," + b, after);
    ParsedInTwo(lib, before, ListLine(k, a) + "\n" + second);
    ParsedInTwo(lib, before, ListLine(k, a + "," + b) + "\n" + after);
    ListAfterText(lib, before, k, a, b, Lines(after));
  }

  lemma ListAfterText<V>(lib: Library<V>, before: string, k: Key, a: string, b: string, rest: seq<string>)
    requires LowersNames(lib.lower) && IsList(k) && IsValue(a) && IsValue(b)
    ensures Accepted(ParsedAfter(lib, before, [ListLine(k, a)] + ([ListLine(k, b)] + rest)))
            == Accepted(ParsedAfter(lib, before, [ListLine(k, a + "," + b)] + rest))
  {
    var st := Run(lib, Initial(), 1, LinesBefore(before));
    if st.Ok? {
      ListAfter(lib, st.value, 1 + |LinesBefore(before)|, k, a, b, rest);
    }
  }
}
