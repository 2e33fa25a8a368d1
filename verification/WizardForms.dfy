/** The setup wizard's text areas (wizard_steps.go, wizard_render.go): "KEY=N" lines and team
    lines, printed from a draft and parsed back from a form. `upper` stands for strings.ToUpper. */
module WizardForms {
  import opened Text

  // ---------------------------------------------------------------- linesFromTextarea

  function FormLines(parts: seq<string>): seq<string>
  {
    if parts == [] then []
    else (if TrimSpace(parts[0]) == "" then [] else [TrimSpace(parts[0])]) + FormLines(parts[1..])
  }

  function LinesOf(raw: string): seq<string>
  {
    FormLines(Split(raw, '\n'))
  }

  lemma {:induction false} FormLinesAppend(a: seq<string>, b: seq<string>)
    ensures FormLines(a + b) == FormLines(a) + FormLines(b)
  {
    if a == [] {
      assert a + b == b;
    } else {
      assert (a + b)[1..] == a[1..] + b;
      FormLinesAppend(a[1..], b);
    }
  }

  method LinesFromTextarea(raw: string) returns (lines: seq<string>)
    ensures lines == LinesOf(raw)
  {
    var parts := Split(raw, '\n');
    lines := [];
    for i := 0 to |parts|
      invariant lines == FormLines(parts[..i])
    {
      assert parts[..i + 1] == parts[..i] + [parts[i]];
      FormLinesAppend(parts[..i], [parts[i]]);
      var line := TrimSpace(parts[i]);
      if line != "" {
        lines := lines + [line];
      }
    }
    assert parts[..|parts|] == parts;
  }

  /** A line a text area gives back as it was typed. */
  predicate Proper(line: string)
  {
    line != "" && Trimmed(line) && '\n' !in line
  }

  lemma {:induction false} ProperLinesStay(lines: seq<string>)
    requires forall l :: l in lines ==> Proper(l)
    ensures FormLines(lines) == lines
  {
    if lines != [] {
      assert lines[0] in lines;
      TrimOfTrimmed(lines[0]);
      ProperLinesStay(lines[1..]);
    }
  }

  lemma LinesOfJoined(lines: seq<string>)
    requires forall l :: l in lines ==> Proper(l)
    ensures LinesOf(Join(lines, '\n')) == lines
  {
    if lines == [] {
      assert Split("", '\n') == [""];
      assert TrimSpace("") == "";
    } else {
      SplitOfJoin(lines, '\n');
      ProperLinesStay(lines);
    }
  }

  lemma {:induction false} FormLinesAreProper(parts: seq<string>)
    requires forall p :: p in parts ==> '\n' !in p
    ensures forall l :: l in FormLines(parts) ==> Proper(l)
  {
    if parts != [] {
      assert parts[0] in parts;
      TrimmedResult(parts[0]);
      FormLinesAreProper(parts[1..]);
    }
  }

  lemma LinesAreProper(raw: string)
    ensures forall l :: l in LinesOf(raw) ==> Proper(l)
  {
    SplitParts(raw, '\n');
    FormLinesAreProper(Split(raw, '\n'));
  }

  // ---------------------------------------------------------------- KEY=N lines

  datatype Entry = Skipped | Entry(key: string, n: int)

  function EntryOf(line: string, upper: string -> string): Entry
  {
    match CutAt(line, '=')
    case Uncut => Skipped
    case Cut(key, value) =>
      match Atoi(TrimSpace(value))
      case None => Skipped
      case Some(n) => Entry(upper(TrimSpace(key)), n)
  }

  function Entries(lines: seq<string>, upper: string -> string): map<string, int>
  {
    if lines == [] then map[]
    else
      var n := |lines| - 1;
      var rest := Entries(lines[..n], upper);
      match EntryOf(lines[n], upper)
      case Skipped => rest
      case Entry(key, value) => rest[key := value]
  }

  lemma EntriesNext(lines: seq<string>, i: nat, upper: string -> string)
    requires i < |lines|
    ensures var before := Entries(lines[..i], upper);
            Entries(lines[..i + 1], upper) ==
            match EntryOf(lines[i], upper)
            case Skipped => before
            case Entry(key, value) => before[key := value]
  {
    assert lines[..i + 1][..i] == lines[..i];
  }

  /** parseKeyEqualsInt; no entry at all gives the nil map. */
  method ParseKeyEqualsInt(raw: string, upper: string -> string) returns (result: Option<map<string, int>>)
    ensures result == Parsed(raw, upper)
  {
    var lines := LinesFromTextarea(raw);
    var entries: map<string, int> := map[];
    for i := 0 to |lines|
      invariant entries == Entries(lines[..i], upper)
    {
      EntriesNext(lines, i, upper);
      match CutAt(lines[i], '=') {
        case Uncut =>
        case Cut(key, value) =>
          var n := Atoi(TrimSpace(value));
          if n != None {
            entries := entries[upper(TrimSpace(key)) := n.value];
          }
      }
    }
    assert lines[..|lines|] == lines;
    if |entries| == 0 {
      return None;
    }
    return Some(entries);
  }

  function Parsed(raw: string, upper: string -> string): Option<map<string, int>>
  {
    var entries := Entries(LinesOf(raw), upper);
    if |entries| == 0 then None else Some(entries)
  }

  function KeyLines(keys: seq<string>, m: map<string, int>): (lines: seq<string>)
    requires forall k :: k in keys ==> k in m
    ensures |lines| == |keys| && forall i :: 0 <= i < |keys| ==> lines[i] == keys[i] + "=" + Itoa(m[keys[i]])
  {
    seq(|keys|, i requires 0 <= i < |keys| => keys[i] + "=" + Itoa(m[keys[i]]))
  }

  /** The printed map: one line for each key, keys in order. */
  ghost predicate Printed(text: string, m: map<string, int>)
  {
    exists keys :: Sorted(keys) && Enumerates(keys, m) && text == Join(KeyLines(keys, m), '\n')
  }

  method PrintKeys(keys: seq<string>, m: map<string, int>) returns (lines: seq<string>)
    requires forall k :: k in keys ==> k in m
    ensures lines == KeyLines(keys, m)
  {
    lines := [];
    for i := 0 to |keys|
      invariant |lines| == i && forall k :: 0 <= k < i ==> lines[k] == KeyLines(keys, m)[k]
    {
      lines := lines + [keys[i] + "=" + Itoa(m[keys[i]])];
    }
  }

  method LinesFromMap(m: map<string, int>) returns (text: string)
    ensures Printed(text, m)
  {
    if |m| == 0 {
      EmptyPrints(m);
      return "";
    }
    var keys := KeysOf(m);
    SortKeepsDistinct(keys);
    keys := SortStrings(keys);
    var lines := PrintKeys(keys, m);
    text := Join(lines, '\n');
  }

  lemma EmptyPrints(m: map<string, int>)
    requires |m| == 0
    ensures Printed("", m)
  {
    var none: seq<string> := [];
    assert m.Keys == {};
    assert KeyLines(none, m) == [];
    assert Sorted(none) && Enumerates(none, m) && "" == Join(KeyLines(none, m), '\n');
  }

  /** What upper-casing is assumed to keep. */
  ghost predicate Casing(upper: string -> string)
  {
    forall s :: upper(upper(s)) == upper(s) && (Trimmed(s) ==> Trimmed(upper(s))) &&
                ('=' !in s ==> '=' !in upper(s)) && ('\n' !in s ==> '\n' !in upper(s))
  }

  /** A key and value the form can carry. */
  predicate Carried(key: string, n: int, upper: string -> string)
  {
    Trimmed(key) && upper(key) == key && '=' !in key && '\n' !in key && MIN_INT <= n <= MAX_INT
  }

  lemma PrintedEntry(key: string, n: int, upper: string -> string)
    requires Carried(key, n, upper)
    ensures Proper(key + "=" + Itoa(n)) && EntryOf(key + "=" + Itoa(n), upper) == Entry(key, n)
  {
    ItoaTrimmed(n);
    TrimmedAround(key, "=", Itoa(n));
    CutFirst(key, '=', Itoa(n));
    assert key + "=" + Itoa(n) == key + ['='] + Itoa(n);
    TrimOfTrimmed(key);
    TrimOfTrimmed(Itoa(n));
    AtoiOfItoa(n);
  }

  /** One more printed key is one more entry read. */
  lemma OneMorePrinted(keys: seq<string>, m: map<string, int>, upper: string -> string)
    requires keys != [] && (forall k :: k in keys ==> k in m) && Carried(keys[|keys| - 1], m[keys[|keys| - 1]], upper)
    ensures var n := |keys| - 1;
            (forall k :: k in keys[..n] ==> k in m) &&
            Entries(KeyLines(keys, m), upper) == Entries(KeyLines(keys[..n], m), upper)[keys[n] := m[keys[n]]]
  {
    var n := |keys| - 1;
    assert KeyLines(keys, m)[..n] == KeyLines(keys[..n], m);
    PrintedEntry(keys[n], m[keys[n]], upper);
  }

  lemma {:induction false} EntriesOfPrinted(keys: seq<string>, m: map<string, int>, upper: string -> string)
    requires Distinct(keys) && forall k :: k in keys ==> k in m && Carried(k, m[k], upper)
    ensures var read := Entries(KeyLines(keys, m), upper);
            (forall k :: k in read <==> k in keys) && forall k :: k in keys ==> read[k] == m[k]
  {
    if keys != [] {
      LastOfDistinct(keys);
      OneMorePrinted(keys, m, upper);
      EntriesOfPrinted(keys[..|keys| - 1], m, upper);
    }
  }

  lemma KeyLinesProper(keys: seq<string>, m: map<string, int>, upper: string -> string)
    requires forall k :: k in keys ==> k in m && Carried(k, m[k], upper)
    ensures forall l :: l in KeyLines(keys, m) ==> Proper(l)
  {
    var lines := KeyLines(keys, m);
    forall l | l in lines
      ensures Proper(l)
    {
      var i :| 0 <= i < |lines| && lines[i] == l;
      assert keys[i] in keys;
      PrintedEntry(keys[i], m[keys[i]], upper);
    }
  }

  /** Whatever is parsed consists of keys and values the form can carry. */
  lemma {:induction false} EntriesAreCarried(lines: seq<string>, upper: string -> string)
    requires Casing(upper) && forall l :: l in lines ==> '\n' !in l
    ensures forall k :: k in Entries(lines, upper) ==> Carried(k, Entries(lines, upper)[k], upper)
  {
    if lines != [] {
      var n := |lines| - 1;
      EntriesAreCarried(lines[..n], upper);
      EntryIsCarried(lines[n], upper);
    }
  }

  lemma EntryIsCarried(line: string, upper: string -> string)
    requires Casing(upper) && '\n' !in line
    ensures var e := EntryOf(line, upper);
            e.Entry? ==> Carried(e.key, e.n, upper)
  {
    var cut := CutAt(line, '=');
    if cut.Cut? {
      TrimmedResult(cut.before);
      var key := TrimSpace(cut.before);
      assert '=' !in key && '\n' !in key;
      assert upper(upper(key)) == upper(key);
    }
  }

  /** Parsing the printed lines gives the map back exactly when it is not empty and every key is
      trimmed, upper-case and free of '=' and newlines, every value within 64 bits. */
  lemma KeyLinesRoundTripIff(text: string, m: map<string, int>, upper: string -> string)
    requires Printed(text, m) && Casing(upper)
    ensures Parsed(text, upper) == Some(m) <==> m != map[] && forall k :: k in m ==> Carried(k, m[k], upper)
  {
    if Parsed(text, upper) == Some(m) {
      LinesAreProper(text);
      EntriesAreCarried(LinesOf(text), upper);
    }
    if m != map[] && forall k :: k in m ==> Carried(k, m[k], upper) {
      var keys :| Sorted(keys) && Enumerates(keys, m) && text == Join(KeyLines(keys, m), '\n');
      PrintedReadsBack(keys, m, upper);
    }
  }

  lemma PrintedReadsBack(keys: seq<string>, m: map<string, int>, upper: string -> string)
    requires Enumerates(keys, m) && m != map[] && forall k :: k in m ==> Carried(k, m[k], upper)
    ensures Parsed(Join(KeyLines(keys, m), '\n'), upper) == Some(m)
  {
    KeyLinesProper(keys, m, upper);
    LinesOfJoined(KeyLines(keys, m));
    EntriesOfPrinted(keys, m, upper);
    SameMap(Entries(KeyLines(keys, m), upper), m);
  }

  lemma SameMap(a: map<string, int>, b: map<string, int>)
    requires (forall k :: k in a <==> k in b) && (forall k :: k in b ==> a[k] == b[k]) && b != map[]
    ensures a == b && |a| != 0
  {
    var k :| k in b;
    assert k in a.Keys;
  }

  // ---------------------------------------------------------------- team lines

  datatype TeamSeed = TeamSeed(id: string, name: string, abbreviation: string, division: string, tone: string)

  function TeamParts(t: TeamSeed): (parts: seq<string>)
    ensures parts != []
  {
    [t.id, t.name, t.abbreviation] + (if t.division != "" || t.tone != "" then [t.division] else []) +
    if t.tone != "" then [t.tone] else []
  }

  function TeamLine(t: TeamSeed): string
  {
    Join(TeamParts(t), ',')
  }

  function TeamLines(teams: seq<TeamSeed>): (lines: seq<string>)
    ensures |lines| == |teams| && forall i :: 0 <= i < |teams| ==> lines[i] == TeamLine(teams[i])
  {
    seq(|teams|, i requires 0 <= i < |teams| => TeamLine(teams[i]))
  }

  method TeamsToTextarea(teams: seq<TeamSeed>) returns (text: string)
    ensures text == Join(TeamLines(teams), '\n')
  {
    var lines: seq<string> := [];
    for i := 0 to |teams|
      invariant lines == TeamLines(teams)[..i]
    {
      var team := teams[i];
      var parts := [team.id, team.name, team.abbreviation];
      if team.division != "" || team.tone != "" {
        parts := parts + [team.division];
      }
      if team.tone != "" {
        parts := parts + [team.tone];
      }
      assert parts == TeamParts(team);
      lines := lines + [Join(parts, ',')];
    }
    assert TeamLines(teams)[..|teams|] == TeamLines(teams);
    text := Join(lines, '\n');
  }

  function Part(parts: seq<string>, i: nat): string
  {
    if i < |parts| then TrimSpace(parts[i]) else ""
  }

  function TeamOf(line: string): TeamSeed
  {
    var parts := Split(line, ',');
    TeamSeed(Part(parts, 0), Part(parts, 1), Part(parts, 2), Part(parts, 3), Part(parts, 4))
  }

  function TeamsOf(lines: seq<string>): (teams: seq<TeamSeed>)
    ensures |teams| == |lines| && forall i :: 0 <= i < |lines| ==> teams[i] == TeamOf(lines[i])
  {
    seq(|lines|, i requires 0 <= i < |lines| => TeamOf(lines[i]))
  }

  /** The team list teamsMutate puts into the draft. */
  method TeamsMutate(form: string) returns (teams: seq<TeamSeed>)
    ensures teams == TeamsOf(LinesOf(form))
  {
    var lines := LinesFromTextarea(form);
    teams := [];
    for i := 0 to |lines|
      invariant teams == TeamsOf(lines)[..i]
    {
      var parts := Split(lines[i], ',');
      var team := TeamSeed("", "", "", "", "");
      if |parts| > 0 {
        team := team.(id := TrimSpace(parts[0]));
      }
      if |parts| > 1 {
        team := team.(name := TrimSpace(parts[1]));
      }
      if |parts| > 2 {
        team := team.(abbreviation := TrimSpace(parts[2]));
      }
      if |parts| > 3 {
        team := team.(division := TrimSpace(parts[3]));
      }
      if |parts| > 4 {
        team := team.(tone := TrimSpace(parts[4]));
      }
      teams := teams + [team];
    }
    assert TeamsOf(lines)[..|lines|] == TeamsOf(lines);
  }

  predicate PlainField(s: string)
  {
    Trimmed(s) && ',' !in s && '\n' !in s
  }

  predicate PlainTeam(t: TeamSeed)
  {
    PlainField(t.id) && PlainField(t.name) && PlainField(t.abbreviation) && PlainField(t.division) && PlainField(t.tone)
  }

  lemma {:induction false} JoinOfPlain(parts: seq<string>)
    requires |parts| >= 2 && forall p :: p in parts ==> PlainField(p)
    ensures Proper(Join(parts, ',')) && Join(parts, ',')[0] == (if parts[0] == "" then ',' else parts[0][0])
  {
    assert parts[0] in parts && parts[1] in parts;
    var rest := parts[1..];
    if |parts| == 2 {
      assert Join(rest, ',') == parts[1];
      TrimmedAround(parts[0], ",", parts[1]);
      assert Join(parts, ',') == parts[0] + "," + parts[1];
    } else {
      JoinOfPlain(rest);
      TrimmedAround(parts[0], ",", Join(rest, ','));
      assert Join(parts, ',') == parts[0] + "," + Join(rest, ',');
    }
  }

  lemma TeamLineReadsBack(t: TeamSeed)
    requires PlainTeam(t)
    ensures Proper(TeamLine(t)) && TeamOf(TeamLine(t)) == t
  {
    var parts := TeamParts(t);
    assert forall p :: p in parts ==> PlainField(p);
    JoinOfPlain(parts);
    SplitOfJoin(parts, ',');
    TrimOfTrimmed(t.id);
    TrimOfTrimmed(t.name);
    TrimOfTrimmed(t.abbreviation);
    TrimOfTrimmed(t.division);
    TrimOfTrimmed(t.tone);
  }

  lemma TeamOfIsPlain(line: string)
    requires '\n' !in line
    ensures PlainTeam(TeamOf(line))
  {
    var parts := Split(line, ',');
    SplitParts(line, ',');
    SplitHasOnly(line, ',');
    forall i: nat
      ensures PlainField(Part(parts, i))
    {
      if i < |parts| {
        assert parts[i] in parts;
        TrimmedResult(parts[i]);
      }
    }
  }

  lemma {:induction false} SplitHasOnly(s: string, sep: char)
    ensures forall p, c :: p in Split(s, sep) && c in p ==> c in s
    decreases |s|
  {
    var i := IndexOf(s, sep);
    if i < |s| {
      SplitHasOnly(s[i + 1..], sep);
      assert Split(s, sep) == [s[..i]] + Split(s[i + 1..], sep);
    }
  }

  /** Parsing the printed team lines gives the teams back exactly when every field is trimmed and
      free of commas and newlines, whether or not division and tone are set. */
  lemma TeamLinesRoundTripIff(teams: seq<TeamSeed>)
    ensures TeamsOf(LinesOf(Join(TeamLines(teams), '\n'))) == teams <==> forall t :: t in teams ==> PlainTeam(t)
  {
    var lines, text := TeamLines(teams), Join(TeamLines(teams), '\n');
    if forall t :: t in teams ==> PlainTeam(t) {
      forall i | 0 <= i < |teams|
        ensures Proper(lines[i]) && TeamOf(lines[i]) == teams[i]
      {
        assert teams[i] in teams;
        TeamLineReadsBack(teams[i]);
      }
      LinesOfJoined(lines);
      assert TeamsOf(lines) == teams;
    }
    if TeamsOf(LinesOf(text)) == teams {
      LinesAreProper(text);
      forall t | t in teams
        ensures PlainTeam(t)
      {
        var i :| 0 <= i < |teams| && teams[i] == t;
        assert LinesOf(text)[i] in LinesOf(text);
        TeamOfIsPlain(LinesOf(text)[i]);
      }
    }
  }
}
