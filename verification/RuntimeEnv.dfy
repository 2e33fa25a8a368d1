/** runtime.env: the file the setup wizard writes and the app merges under its real
    environment at boot (runtime_env.go). */
module RuntimeEnv {
  import opened Text

  type Environment = map<string, string>

  datatype AliasPair = AliasPair(alias: string, canonical: string)

  const GENERATED := "# Generated by the Gridiron setup wizard."
  const ADVICE := " Do not edit by hand; re-run setup instead."
  const HEADER := GENERATED + ADVICE
  const COMMISSIONER := "COMMISSIONER_EMAILS"
  const ALIASES := "IDENTITY_ALIASES"
  const SECRET := "SESSION_SECRET"
  const NUL: char := '\0'

  // ---------------------------------------------------------------- loading

  datatype LoadError = MissingEquals(line: nat) | EmptyKey(line: nat) | SetFailed(key: string)

  datatype Loaded = Loaded(env: Environment, error: Option<LoadError>)

  /** os.Getenv. */
  function Getenv(env: Environment, key: string): string
  {
    if key in env then env[key] else ""
  }

  predicate Blank(s: string)
  {
    TrimSpace(s) == ""
  }

  datatype Line = Skipped | NoEquals | NoKey | Definition(key: string, value: string)

  function ParseLine(raw: string): Line
  {
    var line := TrimSpace(raw);
    if line == "" || line[0] == '#' then Skipped
    else
      match CutAt(line, '=')
      case Uncut => NoEquals
      case Cut(before, after) =>
        var key := TrimSpace(before);
        if key == "" then NoKey else Definition(key, TrimSpace(after))
  }

  /** os.Setenv fails on a NUL byte; a parsed key is never empty and never holds '='. */
  predicate Settable(key: string, value: string)
  {
    NUL !in key && NUL !in value
  }

  /** The effect of the lines from `lineNo` on. */
  function LoadLines(lines: seq<string>, env: Environment, lineNo: nat): Loaded
  {
    if lines == [] then Loaded(env, None)
    else
      match ParseLine(lines[0])
      case Skipped => LoadLines(lines[1..], env, lineNo + 1)
      case NoEquals => Loaded(env, Some(MissingEquals(lineNo + 1)))
      case NoKey => Loaded(env, Some(EmptyKey(lineNo + 1)))
      case Definition(key, value) =>
        if !Blank(Getenv(env, key)) then LoadLines(lines[1..], env, lineNo + 1)
        else if !Settable(key, value) then Loaded(env, Some(SetFailed(key)))
        else LoadLines(lines[1..], env[key := value], lineNo + 1)
  }

  /** `content` is None when the file does not exist. */
  method LoadRuntimeEnvFile(content: Option<string>, before: Environment) returns (result: Loaded)
    ensures result == if content.None? then Loaded(before, None)
                      else LoadLines(Split(content.value, '\n'), before, 0)
  {
    if content.None? {
      return Loaded(before, None);
    }
    var lines := Split(content.value, '\n');
    var env := before;
    var lineNo := 0;
    while lineNo < |lines|
      invariant 0 <= lineNo <= |lines|
      invariant LoadLines(lines, before, 0) == LoadLines(lines[lineNo..], env, lineNo)
    {
      var line := TrimSpace(lines[lineNo]);
      if line != "" && line[0] != '#' {
        var cut := CutAt(line, '=');
        if cut.Uncut? {
          return Loaded(env, Some(MissingEquals(lineNo + 1)));
        }
        var key := TrimSpace(cut.before);
        if key == "" {
          return Loaded(env, Some(EmptyKey(lineNo + 1)));
        }
        if TrimSpace(Getenv(env, key)) == "" {
          var value := TrimSpace(cut.after);
          if !Settable(key, value) {
            return Loaded(env, Some(SetFailed(key)));
          }
          env := env[key := value];
        }
      }
      lineNo := lineNo + 1;
    }
    result := Loaded(env, None);
  }

  // ---------------------------------------------------------------- which definition wins

  predicate WellFormed(lines: seq<string>)
  {
    forall i :: 0 <= i < |lines| ==>
      var p := ParseLine(lines[i]);
      p.Skipped? || (p.Definition? && Settable(p.key, p.value))
  }

  predicate Defines(line: string, key: string)
  {
    ParseLine(line).Definition? && ParseLine(line).key == key
  }

  /** The value of the first definition of `key` that is not blank. */
  function FirstNonBlank(lines: seq<string>, key: string): (value: Option<string>)
    ensures value.Some? <==> exists i :: 0 <= i < |lines| && Defines(lines[i], key) && !Blank(ParseLine(lines[i]).value)
  {
    if lines == [] then None
    else if Defines(lines[0], key) && !Blank(ParseLine(lines[0]).value) then Some(ParseLine(lines[0]).value)
    else
      var rest := FirstNonBlank(lines[1..], key);
      assert forall i :: 1 <= i < |lines| ==> lines[i] == lines[1..][i - 1];
      rest
  }

  predicate DefinedIn(lines: seq<string>, key: string)
  {
    exists i :: 0 <= i < |lines| && Defines(lines[i], key)
  }

  /** The real environment wins; below it the first non-blank definition wins; a key that is
      defined only as blank ends up empty; an undefined key is untouched. */
  lemma {:induction false} LoadedValue(lines: seq<string>, env: Environment, lineNo: nat, key: string)
    requires WellFormed(lines)
    ensures LoadLines(lines, env, lineNo).error.None?
    ensures var after := LoadLines(lines, env, lineNo).env;
            Getenv(after, key) ==
              if !Blank(Getenv(env, key)) then Getenv(env, key)
              else if FirstNonBlank(lines, key).Some? then FirstNonBlank(lines, key).value
              else if DefinedIn(lines, key) then ""
              else Getenv(env, key)
    ensures key in LoadLines(lines, env, lineNo).env <==> key in env || DefinedIn(lines, key)
  {
    if lines != [] {
      var rest := lines[1..];
      assert forall i :: 0 <= i < |rest| ==> rest[i] == lines[i + 1];
      DefinedInCons(lines, key);
      var p := ParseLine(lines[0]);
      var env' := if p.Definition? && Blank(Getenv(env, p.key)) then env[p.key := p.value] else env;
      LoadedValue(rest, env', lineNo + 1, key);
      if p.Definition? {
        BlankIsEmptyWhenTrimmed(lines[0]);
      }
    }
  }

  lemma DefinedInCons(lines: seq<string>, key: string)
    requires lines != []
    ensures DefinedIn(lines, key) <==> Defines(lines[0], key) || DefinedIn(lines[1..], key)
  {
    if DefinedIn(lines, key) && !Defines(lines[0], key) {
      var i :| 0 <= i < |lines| && Defines(lines[i], key);
      assert lines[1..][i - 1] == lines[i];
    }
    if DefinedIn(lines[1..], key) {
      var i :| 0 <= i < |lines[1..]| && Defines(lines[1..][i], key);
      assert lines[i + 1] == lines[1..][i];
    }
  }

  lemma BlankIsEmptyWhenTrimmed(line: string)
    requires ParseLine(line).Definition?
    ensures Blank(ParseLine(line).value) ==> ParseLine(line).value == ""
  {
    var cut := CutAt(TrimSpace(line), '=');
    TrimmedResult(cut.after);
    TrimOfTrimmed(ParseLine(line).value);
  }

  /** A malformed line stops the load; the lines above it have already taken effect. */
  lemma {:induction false} LoadStopsAtBadLine(lines: seq<string>, env: Environment, lineNo: nat, bad: nat)
    requires bad < |lines| && WellFormed(lines[..bad])
    requires ParseLine(lines[bad]).NoEquals? || ParseLine(lines[bad]).NoKey?
    ensures LoadLines(lines, env, lineNo) ==
            Loaded(LoadLines(lines[..bad], env, lineNo).env,
                   Some(if ParseLine(lines[bad]).NoEquals? then MissingEquals(lineNo + bad + 1)
                        else EmptyKey(lineNo + bad + 1)))
  {
    if bad > 0 {
      var p := ParseLine(lines[0]);
      assert lines[..bad][0] == lines[0] && lines[..bad][1..] == lines[1..][..bad - 1];
      var env' := if p.Definition? && Blank(Getenv(env, p.key)) then env[p.key := p.value] else env;
      LoadStopsAtBadLine(lines[1..], env', lineNo + 1, bad - 1);
    }
  }

  // ---------------------------------------------------------------- rendering

  function PairText(pair: AliasPair): string
  {
    pair.alias + "=" + pair.canonical
  }

  function PairTexts(aliases: seq<AliasPair>): (texts: seq<string>)
    ensures |texts| == |aliases| && forall i :: 0 <= i < |texts| ==> texts[i] == PairText(aliases[i])
  {
    seq(|aliases|, i requires 0 <= i < |aliases| => PairText(aliases[i]))
  }

  function AliasText(aliases: seq<AliasPair>): string
  {
    Join(PairTexts(aliases), ',')
  }

  datatype Binding = Binding(key: string, value: string)

  function BindingText(b: Binding): string
  {
    b.key + "=" + b.value
  }

  /** The variables the file defines, in order. */
  function Bindings(commissioner: string, aliases: seq<AliasPair>, secret: string): seq<Binding>
  {
    [Binding(COMMISSIONER, commissioner)]
    + (if aliases == [] then [] else [Binding(ALIASES, AliasText(aliases))])
    + [Binding(SECRET, secret)]
  }

  function BindingLines(bindings: seq<Binding>): (lines: seq<string>)
    ensures |lines| == |bindings| && forall i :: 0 <= i < |lines| ==> lines[i] == BindingText(bindings[i])
  {
    seq(|bindings|, i requires 0 <= i < |bindings| => BindingText(bindings[i]))
  }

  /** Every line followed by a newline. */
  function Terminated(lines: seq<string>): string
  {
    if lines == [] then "" else Terminated(lines[..|lines| - 1]) + lines[|lines| - 1] + "\n"
  }

  function Rendered(commissioner: string, aliases: seq<AliasPair>, secret: string): string
  {
    Terminated([HEADER] + BindingLines(Bindings(commissioner, aliases, secret)))
  }

  lemma TerminatedThen(lines: seq<string>, line: string)
    ensures Terminated(lines + [line]) == Terminated(lines) + line + "\n"
  {
    assert (lines + [line])[..|lines|] == lines;
  }

  method RenderRuntimeEnv(commissioner: string, aliases: seq<AliasPair>, secret: string) returns (content: string)
    ensures content == Rendered(commissioner, aliases, secret)
  {
    content := HEADER + "\n";
    ghost var lines := [HEADER];
    TerminatedThen([], HEADER);
    assert [] + [HEADER] == lines && Terminated([]) + HEADER + "\n" == content;
    content := content + (COMMISSIONER + "=" + commissioner) + "\n";
    TerminatedThen(lines, COMMISSIONER + "=" + commissioner);
    lines := lines + [COMMISSIONER + "=" + commissioner];
    if |aliases| > 0 {
      var pairs: seq<string> := [];
      for i := 0 to |aliases|
        invariant pairs == PairTexts(aliases)[..i]
      {
        pairs := pairs + [aliases[i].alias + "=" + aliases[i].canonical];
      }
      assert pairs == PairTexts(aliases);
      content := content + (ALIASES + "=" + Join(pairs, ',')) + "\n";
      TerminatedThen(lines, ALIASES + "=" + AliasText(aliases));
      lines := lines + [ALIASES + "=" + AliasText(aliases)];
    }
    content := content + (SECRET + "=" + secret) + "\n";
    TerminatedThen(lines, SECRET + "=" + secret);
    lines := lines + [SECRET + "=" + secret];
    assert lines == [HEADER] + BindingLines(Bindings(commissioner, aliases, secret));
  }

  // ---------------------------------------------------------------- round trip

  /** A value the file can carry: one line, no surrounding white space. */
  predicate Plain(s: string)
  {
    Trimmed(s) && '\n' !in s && NUL !in s
  }

  predicate PlainPairs(aliases: seq<AliasPair>)
  {
    forall i :: 0 <= i < |aliases| ==> Plain(aliases[i].alias) && Plain(aliases[i].canonical)
  }

  lemma PairPlain(pair: AliasPair)
    requires Plain(pair.alias) && Plain(pair.canonical)
    ensures Plain(PairText(pair)) && PairText(pair) != ""
  {
    TrimmedAround(pair.alias, "=", pair.canonical);
  }

  lemma {:induction false} JoinPlain(texts: seq<string>)
    requires texts != [] && forall t :: t in texts ==> Plain(t) && t != ""
    ensures Plain(Join(texts, ',')) && Join(texts, ',') != ""
  {
    assert texts[0] in texts;
    if |texts| > 1 {
      JoinPlain(texts[1..]);
      TrimmedAround(texts[0], ",", Join(texts[1..], ','));
    }
  }

  lemma AliasTextPlain(aliases: seq<AliasPair>)
    requires aliases != [] && PlainPairs(aliases)
    ensures Plain(AliasText(aliases)) && AliasText(aliases) != ""
  {
    forall t | t in PairTexts(aliases) ensures Plain(t) && t != "" {
      var i :| 0 <= i < |aliases| && PairTexts(aliases)[i] == t;
      PairPlain(aliases[i]);
    }
    JoinPlain(PairTexts(aliases));
  }

  lemma ParseDefinition(key: string, value: string)
    requires key != "" && Trimmed(key) && key[0] != '#' && '=' !in key && Plain(value)
    ensures ParseLine(key + "=" + value) == Definition(key, value)
  {
    TrimmedAround(key, "=", value);
    TrimOfTrimmed(key + "=" + value);
    CutFirst(key, '=', value);
    assert key + ['='] + value == key + "=" + value;
    TrimOfTrimmed(key);
    TrimOfTrimmed(value);
  }

  lemma AdviceIsOneLine()
    ensures '\n' !in ADVICE && ADVICE[|ADVICE| - 1] == '.'
  {
  }

  lemma HeaderIsComment()
    ensures '\n' !in HEADER && ParseLine(HEADER).Skipped?
  {
    AdviceIsOneLine();
    CommentLine(GENERATED, ADVICE);
  }

  lemma CommentLine(start: string, end: string)
    requires start != "" && start[0] == '#' && end != "" && end[|end| - 1] == '.'
    ensures ParseLine(start + end).Skipped?
  {
    TrimOfTrimmed(start + end);
  }

  predicate PlainKey(key: string)
  {
    key != "" && Trimmed(key) && key[0] != '#' && '=' !in key && NUL !in key && '\n' !in key
  }

  predicate PlainBindings(bindings: seq<Binding>)
  {
    forall i :: 0 <= i < |bindings| ==> PlainKey(bindings[i].key) && Plain(bindings[i].value)
  }

  lemma KeysPlain()
    ensures PlainKey(COMMISSIONER) && PlainKey(ALIASES) && PlainKey(SECRET)
  {
    assert COMMISSIONER[0] == 'C' && COMMISSIONER[18] == 'S' && ALIASES[15] == 'S' && SECRET[13] == 'T';
  }

  lemma BindingsPlain(commissioner: string, aliases: seq<AliasPair>, secret: string)
    requires Plain(commissioner) && Plain(secret) && PlainPairs(aliases)
    ensures PlainBindings(Bindings(commissioner, aliases, secret))
  {
    KeysPlain();
    if aliases != [] {
      AliasTextPlain(aliases);
    }
  }

  lemma {:induction false} SplitTerminated(lines: seq<string>)
    requires forall i :: 0 <= i < |lines| ==> '\n' !in lines[i]
    ensures Split(Terminated(lines), '\n') == lines + [""]
  {
    TerminatedIsJoin(lines);
    SplitOfJoin(lines + [""], '\n');
  }

  lemma {:induction false} TerminatedIsJoin(lines: seq<string>)
    ensures Terminated(lines) == Join(lines + [""], '\n')
  {
    if lines != [] {
      TerminatedCons(lines[0], lines[1..]);
      TerminatedIsJoin(lines[1..]);
      JoinCons(lines[0], lines[1..] + [""], '\n');
      assert [lines[0]] + lines[1..] == lines;
      assert [lines[0]] + (lines[1..] + [""]) == lines + [""];
    }
  }

  lemma Regrouped(a: string, b: string, c: string, d: string)
    ensures (a + b) + c + d == a + (b + c + d)
  {
  }

  lemma LastLine(line: string, lines: seq<string>)
    requires lines != []
    ensures var n := |lines| - 1; [line] + lines == ([line] + lines[..n]) + [lines[n]]
  {
  }

  lemma {:induction false} TerminatedCons(line: string, lines: seq<string>)
    ensures Terminated([line] + lines) == (line + "\n") + Terminated(lines)
  {
    if lines == [] {
      TerminatedThen([], line);
      assert [] + [line] == [line] + lines;
    } else {
      var n := |lines| - 1;
      LastLine(line, lines);
      TerminatedThen([line] + lines[..n], lines[n]);
      TerminatedCons(line, lines[..n]);
      Regrouped(line + "\n", Terminated(lines[..n]), lines[n], "\n");
    }
  }

  /** One variable merged under the real environment. */
  function Merged(env: Environment, b: Binding): Environment
  {
    if Blank(Getenv(env, b.key)) then env[b.key := b.value] else env
  }

  function MergedAll(env: Environment, bindings: seq<Binding>): Environment
    decreases |bindings|
  {
    if bindings == [] then env else MergedAll(Merged(env, bindings[0]), bindings[1..])
  }

  lemma {:induction false} LoadBindings(bindings: seq<Binding>, env: Environment, lineNo: nat)
    requires PlainBindings(bindings)
    ensures LoadLines(BindingLines(bindings) + [""], env, lineNo) == Loaded(MergedAll(env, bindings), None)
  {
    var lines := BindingLines(bindings) + [""];
    if bindings != [] {
      var b := bindings[0];
      ParseDefinition(b.key, b.value);
      assert lines[0] == b.key + "=" + b.value;
      assert lines[1..] == BindingLines(bindings[1..]) + [""];
      LoadBindings(bindings[1..], Merged(env, b), lineNo + 1);
    } else {
      assert lines[1..] == [];
    }
  }

  lemma BindingLinesClean(bindings: seq<Binding>)
    requires PlainBindings(bindings)
    ensures forall i :: 0 <= i < |bindings| ==> '\n' !in BindingLines(bindings)[i]
  {
    forall i | 0 <= i < |bindings|
      ensures '\n' !in BindingLines(bindings)[i]
    {
      assert BindingLines(bindings)[i] == bindings[i].key + "=" + bindings[i].value;
    }
  }

  /** The lines of any file that starts with a comment line. */
  lemma LoadUnderHeader(header: string, bindings: seq<Binding>, env: Environment)
    requires '\n' !in header && ParseLine(header).Skipped? && PlainBindings(bindings)
    ensures LoadLines(Split(Terminated([header] + BindingLines(bindings)), '\n'), env, 0) ==
            Loaded(MergedAll(env, bindings), None)
  {
    var lines := BindingLines(bindings);
    BindingLinesClean(bindings);
    SplitTerminated([header] + lines);
    assert ([header] + lines + [""])[1..] == lines + [""];
    LoadBindings(bindings, env, 1);
  }

  /** What boot reads back from a file the wizard wrote: a variable that is already set
      keeps its value, and otherwise the values come back exactly. */
  lemma RenderedFileRestores(commissioner: string, aliases: seq<AliasPair>, secret: string, env: Environment)
    requires Plain(commissioner) && Plain(secret) && PlainPairs(aliases)
    ensures LoadLines(Split(Rendered(commissioner, aliases, secret), '\n'), env, 0) ==
            Loaded(MergedAll(env, Bindings(commissioner, aliases, secret)), None)
  {
    BindingsPlain(commissioner, aliases, secret);
    HeaderIsComment();
    LoadUnderHeader(HEADER, Bindings(commissioner, aliases, secret), env);
  }

  lemma {:induction false} MergedValue(env: Environment, bindings: seq<Binding>, key: string)
    requires forall i, j :: 0 <= i < j < |bindings| ==> bindings[i].key != bindings[j].key
    ensures forall i :: 0 <= i < |bindings| && bindings[i].key == key ==>
              Getenv(MergedAll(env, bindings), key) ==
                if Blank(Getenv(env, key)) then bindings[i].value else Getenv(env, key)
    ensures (forall i :: 0 <= i < |bindings| ==> bindings[i].key != key) ==>
              Getenv(MergedAll(env, bindings), key) == Getenv(env, key)
    decreases |bindings|
  {
    if bindings != [] {
      assert forall i :: 1 <= i < |bindings| ==> bindings[i] == bindings[1..][i - 1];
      MergedValue(Merged(env, bindings[0]), bindings[1..], key);
    }
  }

  /** A variable that is already set keeps its value; otherwise the commissioner, the aliases
      and the secret read back as written; no other variable changes. */
  lemma ReadsBack(commissioner: string, aliases: seq<AliasPair>, secret: string, env: Environment, key: string)
    ensures var after := Getenv(MergedAll(env, Bindings(commissioner, aliases, secret)), key);
            after == if !Blank(Getenv(env, key)) then Getenv(env, key)
                     else if key == COMMISSIONER then commissioner
                     else if key == SECRET then secret
                     else if key == ALIASES && aliases != [] then AliasText(aliases)
                     else Getenv(env, key)
  {
    assert COMMISSIONER[0] == 'C' && ALIASES[0] == 'I' && SECRET[0] == 'S';
    var bindings := Bindings(commissioner, aliases, secret);
    assert bindings[0].key == COMMISSIONER && bindings[|bindings| - 1].key == SECRET;
    assert aliases != [] ==> bindings[1].key == ALIASES;
    MergedValue(env, bindings, key);
  }
}
