/** The blank-line pass after comment stripping (stylesheet_asset.go), and what applying the whole
    transformation twice does. */
module StylesheetLines {
  import opened Text
  import opened Stylesheet

  // ---------------------------------------------------------------- collapseBlankLines

  function TrimBlanks(line: string): (t: string)
    ensures t <= line
  {
    if line != "" && line[|line| - 1] in {' ', '\t'} then TrimBlanks(line[..|line| - 1]) else line
  }

  predicate Blank(line: string)
  {
    forall i :: 0 <= i < |line| ==> IsSpace(line[i])
  }

  function KeptLines(lines: seq<string>): seq<string>
  {
    if lines == [] then []
    else (if Blank(lines[0]) then [] else [TrimBlanks(lines[0])]) + KeptLines(lines[1..])
  }

  function Collapsed(s: string): string
  {
    Join(KeptLines(Split(s, '\n')), '\n') + "\n"
  }

  lemma {:induction false} BlankIffTrimsAway(line: string)
    ensures TrimSpace(line) == "" <==> Blank(line)
  {
    TrimLeftBlank(line);
    var t := TrimLeft(line);
    if t != "" {
      TrimRightKeeps(t);
    }
  }

  lemma {:induction false} TrimLeftBlank(line: string)
    ensures TrimLeft(line) == "" <==> Blank(line)
    ensures TrimLeft(line) != "" ==> !IsSpace(TrimLeft(line)[0])
  {
    if line != "" && IsSpace(line[0]) {
      TrimLeftBlank(line[1..]);
      assert Blank(line[1..]) <==> Blank(line) by {
        if Blank(line[1..]) {
          forall i | 0 <= i < |line|
            ensures IsSpace(line[i])
          {
            assert i > 0 ==> IsSpace(line[1..][i - 1]);
          }
        }
      }
    }
  }

  lemma {:induction false} TrimRightKeeps(s: string)
    requires s != "" && !IsSpace(s[0])
    ensures TrimRight(s) != ""
  {
    if IsSpace(s[|s| - 1]) {
      TrimRightKeeps(s[..|s| - 1]);
    }
  }

  lemma {:induction false} KeptLinesAppend(a: seq<string>, b: seq<string>)
    ensures KeptLines(a + b) == KeptLines(a) + KeptLines(b)
  {
    if a == [] {
      assert a + b == b;
    } else {
      assert (a + b)[1..] == a[1..] + b;
      KeptLinesAppend(a[1..], b);
    }
  }

  method CollapseBlankLines(src: string) returns (joined: string)
    ensures joined == Collapsed(src)
  {
    var lines := Split(src, '\n');
    var out: seq<string> := [];
    for i := 0 to |lines|
      invariant out == KeptLines(lines[..i])
    {
      var line := lines[i];
      assert lines[..i + 1] == lines[..i] + [line];
      KeptLinesAppend(lines[..i], [line]);
      BlankIffTrimsAway(line);
      if |TrimSpace(line)| == 0 {
        continue;
      }
      out := out + [TrimBlanks(line)];
    }
    assert lines[..|lines|] == lines;
    joined := Join(out, '\n');
    joined := joined + "\n";
  }

  /** stripStylesheetComments: the scan, then the lines. */
  method StripStylesheetComments(src: string) returns (out: string)
    ensures out == Collapsed(Stripped(src))
  {
    out := Scan(src);
    out := CollapseBlankLines(out);
  }

  // ---------------------------------------------------------------- lines kept in order

  predicate Clean(line: string)
  {
    !Blank(line) && TrimBlanks(line) == line && '\n' !in line
  }

  lemma {:induction false} TrimmedIsClean(line: string)
    requires !Blank(line) && '\n' !in line
    ensures Clean(TrimBlanks(line))
  {
    if line[|line| - 1] in {' ', '\t'} {
      var n := |line| - 1;
      assert !Blank(line[..n]) by {
        var i :| 0 <= i < |line| && !IsSpace(line[i]);
        assert line[..n][i] == line[i];
      }
      TrimmedIsClean(line[..n]);
    }
  }

  lemma {:induction false} KeptAreClean(lines: seq<string>)
    requires forall l :: l in lines ==> '\n' !in l
    ensures forall l :: l in KeptLines(lines) ==> Clean(l)
  {
    if lines != [] {
      assert lines[0] in lines;
      KeptAreClean(lines[1..]);
      if !Blank(lines[0]) {
        TrimmedIsClean(lines[0]);
      }
    }
  }

  lemma {:induction false} CleanAreKept(lines: seq<string>)
    requires forall l :: l in lines ==> Clean(l)
    ensures KeptLines(lines) == lines && KeptLines(lines + [""]) == lines
  {
    assert KeptLines([""]) == [];
    KeptLinesAppend(lines, [""]);
    if lines != [] {
      assert lines[0] in lines;
      CleanAreKept(lines[1..]);
    }
  }

  /** Every line followed by its newline. */
  function Unlines(lines: seq<string>): string
  {
    if lines == [] then "" else lines[0] + "\n" + Unlines(lines[1..])
  }

  lemma {:induction false} JoinIsUnlines(lines: seq<string>)
    requires lines != []
    ensures Join(lines, '\n') + "\n" == Unlines(lines)
  {
    if |lines| > 1 {
      JoinIsUnlines(lines[1..]);
      assert lines[0] + ['\n'] + Join(lines[1..], '\n') + "\n" ==
             lines[0] + "\n" + (Join(lines[1..], '\n') + "\n");
    } else {
      assert lines[1..] == [];
      assert Unlines(lines) == lines[0] + "\n" + "";
    }
  }

  /** The lines of the result are the source's non-blank lines, in order, without trailing blanks. */
  lemma CollapseKeepsLines(s: string)
    ensures Collapsed(s) == if KeptLines(Split(s, '\n')) == [] then "\n" else Unlines(KeptLines(Split(s, '\n')))
    ensures Split(Collapsed(s), '\n') ==
            if KeptLines(Split(s, '\n')) == [] then ["", ""] else KeptLines(Split(s, '\n')) + [""]
  {
    var kept := KeptLines(Split(s, '\n'));
    SplitParts(s, '\n');
    KeptAreClean(Split(s, '\n'));
    if kept == [] {
      SplitOfJoin(["", ""], '\n');
      assert Join(["", ""], '\n') == "\n" by {
        assert ["", ""][1..] == [""];
      }
    } else {
      JoinIsUnlines(kept);
      var all := kept + [""];
      assert forall p :: p in all ==> '\n' !in p;
      JoinEndsEmpty(kept);
      SplitOfJoin(all, '\n');
    }
  }

  lemma {:induction false} JoinEndsEmpty(lines: seq<string>)
    requires lines != []
    ensures Join(lines + [""], '\n') == Join(lines, '\n') + "\n"
  {
    if |lines| == 1 {
      assert (lines + [""])[1..] == [""];
    } else {
      assert (lines + [""])[1..] == lines[1..] + [""];
      JoinEndsEmpty(lines[1..]);
    }
  }

  /** Collapsing twice changes nothing. */
  lemma CollapseIsIdempotent(s: string)
    ensures Collapsed(Collapsed(s)) == Collapsed(s)
  {
    var kept := KeptLines(Split(s, '\n'));
    CollapseKeepsLines(s);
    if kept == [] {
      assert ["", ""] == [""] + [""] && KeptLines([""]) == [];
      KeptLinesAppend([""], [""]);
    } else {
      SplitParts(s, '\n');
      KeptAreClean(Split(s, '\n'));
      CleanAreKept(kept);
    }
  }

  lemma {:induction false} UnlinesShrinks(lines: seq<string>)
    ensures |Unlines(KeptLines(lines))| <= |Unlines(lines)|
  {
    if lines != [] {
      UnlinesShrinks(lines[1..]);
      var rest := KeptLines(lines[1..]);
      if !Blank(lines[0]) {
        assert KeptLines(lines)[1..] == rest;
      } else {
        assert KeptLines(lines) == rest;
      }
    }
  }

  lemma CollapseAddsAtMostOne(s: string)
    ensures |Collapsed(s)| <= |s| + 1
  {
    CollapseKeepsLines(s);
    SplitParts(s, '\n');
    JoinIsUnlines(Split(s, '\n'));
    UnlinesShrinks(Split(s, '\n'));
  }

  // ---------------------------------------------------------------- comments survive collapsing

  /** Where a scan stands that only asks whether a comment ever opens. */
  datatype Mode = Normal | Slash | InQuote(q: char) | Escaped(q: char) | Found

  function Step(m: Mode, c: char): Mode
  {
    match m
    case Normal => if IsQuote(c) then InQuote(c) else if c == '/' then Slash else Normal
    case Slash => if c == '*' then Found else if IsQuote(c) then InQuote(c) else if c == '/' then Slash else Normal
    case InQuote(q) => if c == '\\' then Escaped(q) else if c == q then Normal else m
    case Escaped(q) => InQuote(q)
    case Found => Found
  }

  function Run(m: Mode, s: string): Mode
    decreases |s|
  {
    if s == "" then m else Run(Step(m, s[0]), s[1..])
  }

  lemma {:induction false} RunAppend(m: Mode, a: string, b: string)
    ensures Run(m, a + b) == Run(Run(m, a), b)
    decreases |a|
  {
    if a == "" {
      assert a + b == b;
    } else {
      assert (a + b)[1..] == a[1..] + b;
      RunAppend(Step(m, a[0]), a[1..], b);
    }
  }

  lemma {:induction false} RunFound(s: string)
    ensures Run(Found, s) == Found
  {
    if s != "" {
      RunFound(s[1..]);
    }
  }

  lemma {:induction false} RunString(s: string, q: char)
    requires IsQuote(q)
    ensures Closes(s, q) ==> Run(InQuote(q), s) == Normal
    ensures StaysOpen(s, q) ==> Run(InQuote(q), s) in {InQuote(q), Escaped(q)}
    decreases |s|
  {
    if s != "" {
      if s[0] == '\\' {
        if |s| > 1 {
          RunString(s[2..], q);
          assert s[1..][1..] == s[2..];
          assert Run(InQuote(q), s) == Run(InQuote(q), s[2..]);
        } else {
          assert s[1..] == "";
        }
      } else if s[0] == q {
        assert |s| == 1 ==> s[1..] == "";
      } else {
        RunString(s[1..], q);
      }
    }
  }

  predicate HasComment(pieces: seq<Piece>)
  {
    exists i :: 0 <= i < |pieces| && pieces[i].Comment?
  }

  lemma HasCommentCons(p: Piece, rest: seq<Piece>)
    ensures HasComment([p] + rest) <==> p.Comment? || HasComment(rest)
  {
    var all := [p] + rest;
    if p.Comment? {
      assert all[0].Comment?;
    }
    if HasComment(rest) {
      var i :| 0 <= i < |rest| && rest[i].Comment?;
      assert all[i + 1].Comment?;
    }
  }

  lemma QuotedRuns(s: string)
    requires s != "" && IsQuote(s[0])
    ensures var text := TextOf(FirstPiece(s));
            Run(Normal, text) == Normal || (text == s && Run(Normal, text) != Found)
  {
    var text := TextOf(FirstPiece(s));
    var body := text[1..];
    StringEndCloses(s[1..], s[0]);
    assert body == s[1..][..StringEnd(s[1..], s[0])];
    RunString(body, s[0]);
    assert text[0] == s[0] && Run(Normal, text) == Run(InQuote(s[0]), body);
    if !Closes(body, s[0]) {
      assert body == s[1..] && text == s;
    }
  }

  /** Reading the first piece either finds a comment or leaves the scan where the rest begins. */
  lemma RunFirstPiece(s: string)
    requires s != ""
    ensures var p := FirstPiece(s);
            var rest := s[|TextOf(p)|..];
            Run(Normal, s) == (if p.Comment? then Found else Run(Normal, rest)) ||
            (!p.Comment? && Run(Normal, s) != Found && Run(Normal, rest) != Found)
  {
    var p := FirstPiece(s);
    var rest := s[|TextOf(p)|..];
    if IsQuote(s[0]) {
      assert s == TextOf(p) + rest;
      RunAppend(Normal, TextOf(p), rest);
      QuotedRuns(s);
    } else if Opens(s) {
      assert s[1..][1..] == s[2..];
      RunFound(s[2..]);
    } else {
      assert rest == s[1..];
      if s[0] == '/' && rest != "" {
        assert rest[0] == s[1] && Step(Slash, rest[0]) == Step(Normal, rest[0]);
      }
    }
  }

  lemma {:induction false} RunFindsComments(s: string)
    ensures Run(Normal, s) == Found <==> HasComment(Segments(s))
    decreases |s|
  {
    if s != "" {
      var p := FirstPiece(s);
      var rest := s[|TextOf(p)|..];
      HasCommentCons(p, Segments(rest));
      RunFindsComments(rest);
      RunFirstPiece(s);
    }
  }

  /** A scan at the start of a line. */
  predicate Rested(m: Mode)
  {
    m != Slash && !m.Escaped?
  }

  lemma {:induction false} BlankLineRuns(m: Mode, line: string)
    requires Rested(m) && Blank(line) && (m.InQuote? ==> IsQuote(m.q))
    ensures Run(m, line) == m
  {
    if line != "" {
      assert IsSpace(line[0]);
      assert Step(m, line[0]) == m;
      forall i | 0 <= i < |line[1..]|
        ensures IsSpace(line[1..][i])
      {
        assert IsSpace(line[i + 1]);
      }
      BlankLineRuns(m, line[1..]);
    }
  }

  lemma RunNewline(m: Mode)
    requires (m.InQuote? || m.Escaped?) ==> IsQuote(m.q)
    ensures Rested(Run(m, "\n")) && (Rested(m) ==> Run(m, "\n") == m)
    ensures Run(m, " \n") == Run(m, "\n") && Run(m, "\t\n") == Run(m, "\n")
    ensures (Run(m, "\n") == Found <==> m == Found)
    ensures Run(m, "\n").InQuote? ==> IsQuote(Run(m, "\n").q)
  {
    assert "\n"[1..] == "" && " \n"[1..] == "\n" && "\t\n"[1..] == "\n";
    assert Run(m, "\n") == Step(m, '\n');
    assert Run(m, " \n") == Step(Step(m, ' '), '\n') by {
      assert Run(Step(m, ' '), "\n") == Step(Step(m, ' '), '\n');
    }
    assert Run(m, "\t\n") == Step(Step(m, '\t'), '\n') by {
      assert Run(Step(m, '\t'), "\n") == Step(Step(m, '\t'), '\n');
    }
  }

  predicate Sane(m: Mode)
  {
    (m.InQuote? || m.Escaped?) ==> IsQuote(m.q)
  }

  lemma {:induction false} RunSane(m: Mode, s: string)
    requires Sane(m)
    ensures Sane(Run(m, s))
    decreases |s|
  {
    if s != "" {
      RunSane(Step(m, s[0]), s[1..]);
    }
  }

  lemma {:induction false} TrimmedLineRuns(m: Mode, line: string)
    requires Sane(m)
    ensures Run(Run(m, TrimBlanks(line)), "\n") == Run(Run(m, line), "\n")
  {
    if line != "" && line[|line| - 1] in {' ', '\t'} {
      var n := |line| - 1;
      var c := line[n];
      TrimmedLineRuns(m, line[..n]);
      assert line == line[..n] + [c];
      RunAppend(m, line[..n], [c]);
      RunSane(m, line[..n]);
      var at := Run(m, line[..n]);
      RunNewline(at);
      RunAppend(at, [c], "\n");
      assert [c] + "\n" == if c == ' ' then " \n" else "\t\n";
    }
  }

  lemma UnlinesRun(m: Mode, line: string, lines: seq<string>)
    ensures Run(m, Unlines([line] + lines)) == Run(Run(Run(m, line), "\n"), Unlines(lines))
  {
    assert ([line] + lines)[1..] == lines;
    RunAppend(m, line + "\n", Unlines(lines));
    RunAppend(m, line, "\n");
  }

  lemma {:induction false} KeptLinesRun(m: Mode, lines: seq<string>)
    requires Rested(m) && Sane(m)
    ensures Run(m, Unlines(KeptLines(lines))) == Run(m, Unlines(lines))
    decreases |lines|
  {
    if lines != [] {
      var line, rest := lines[0], lines[1..];
      assert lines == [line] + rest;
      UnlinesRun(m, line, rest);
      RunSane(m, line);
      RunNewline(Run(m, line));
      var after := Run(Run(m, line), "\n");
      KeptLinesRun(after, rest);
      if Blank(line) {
        BlankLineRuns(m, line);
        assert KeptLines(lines) == KeptLines(rest);
      } else {
        TrimmedLineRuns(m, line);
        assert KeptLines(lines) == [TrimBlanks(line)] + KeptLines(rest);
        UnlinesRun(m, TrimBlanks(line), KeptLines(rest));
      }
    }
  }

  /** Collapsing lines neither opens a comment nor removes one. */
  lemma CollapseKeepsComments(s: string)
    ensures HasComment(Segments(Collapsed(s))) <==> HasComment(Segments(s))
  {
    var lines := Split(s, '\n');
    SplitParts(s, '\n');
    JoinIsUnlines(lines);
    KeptLinesRun(Normal, lines);
    CollapseKeepsLines(s);
    RunAppend(Normal, s, "\n");
    RunSane(Normal, s);
    RunNewline(Run(Normal, s));
    RunNewline(Normal);
    RunFindsComments(s);
    RunFindsComments(Collapsed(s));
    assert Run(Normal, Collapsed(s)) == Run(Normal, s + "\n");
  }

  // ---------------------------------------------------------------- stripping twice

  /** Two characters that only a removed comment kept apart. */
  predicate JoinsMark(kept: seq<Piece>)
  {
    exists i :: 0 <= i < |kept| - 1 && kept[i] == Plain('/') && kept[i + 1] == Plain('*')
  }

  predicate Uncommented(pieces: seq<Piece>)
  {
    forall i :: 0 <= i < |pieces| ==> !pieces[i].Comment? && PieceOk(pieces[i], i == |pieces| - 1)
  }

  lemma {:induction false} KeptIsUncommented(pieces: seq<Piece>)
    requires Segmented(pieces)
    ensures Uncommented(Kept(pieces))
    ensures |Source(Kept(pieces))| + (if HasComment(pieces) then 2 else 0) <= |Source(pieces)|
    ensures !HasComment(pieces) ==> Kept(pieces) == pieces
  {
    if pieces != [] {
      var p, rest := pieces[0], pieces[1..];
      assert pieces == [p] + rest;
      HasCommentCons(p, rest);
      KeptIsUncommented(rest);
      if !p.Comment? {
        assert Kept(pieces)[1..] == Kept(rest);
        if rest == [] {
          assert Kept(rest) == [];
        }
      }
    }
  }

  lemma {:induction false} ScanOfKept(kept: seq<Piece>)
    requires Uncommented(kept)
    ensures HasComment(Segments(Source(kept))) <==> JoinsMark(kept)
    decreases |kept|
  {
    if kept == [] {
      assert Segments("") == [];
    } else {
      var p, rest := kept[0], kept[1..];
      var s := TextOf(p) + Source(rest);
      assert Uncommented(rest) by {
        assert forall i :: 0 <= i < |rest| ==> rest[i] == kept[i + 1];
      }
      ScanOfKept(rest);
      JoinsMarkCons(p, rest);
      assert kept == [p] + rest;
      if rest != [] {
        assert Source(rest)[0] == TextOf(rest[0])[0];
      }
      if p == Plain('/') && rest != [] && rest[0] == Plain('*') {
        assert Opens(s) && FirstPiece(s).Comment?;
        HasCommentCons(FirstPiece(s), Segments(s[|TextOf(FirstPiece(s))|..]));
      } else {
        FirstPieceIs(p, Source(rest));
        assert s[|TextOf(p)|..] == Source(rest);
        HasCommentCons(p, Segments(Source(rest)));
      }
    }
  }

  lemma JoinsMarkCons(p: Piece, rest: seq<Piece>)
    ensures JoinsMark([p] + rest) <==> (p == Plain('/') && rest != [] && rest[0] == Plain('*')) || JoinsMark(rest)
  {
    var all := [p] + rest;
    if p == Plain('/') && rest != [] && rest[0] == Plain('*') {
      assert all[0] == p && all[0 + 1] == rest[0];
    }
    if JoinsMark(rest) {
      var i :| 0 <= i < |rest| - 1 && rest[i] == Plain('/') && rest[i + 1] == Plain('*');
      assert all[i + 1] == rest[i] && all[i + 1 + 1] == rest[i + 1];
    }
  }

  /** Stripping the result again changes nothing exactly when no removed comment stood between a
      '/' and a '*': such a pair would open a comment the source did not have. */
  lemma StripTwiceIff(src: string)
    ensures var once := Collapsed(Stripped(src));
            Collapsed(Stripped(once)) == once <==> !JoinsMark(Kept(Segments(src)))
  {
    var once := Collapsed(Stripped(src));
    SegmentsSegment(src);
    KeptIsUncommented(Segments(src));
    ScanOfKept(Kept(Segments(src)));
    CollapseKeepsComments(Stripped(src));
    SegmentsSegment(once);
    KeptIsUncommented(Segments(once));
    if HasComment(Segments(once)) {
      CollapseAddsAtMostOne(Stripped(once));
    } else {
      assert Stripped(once) == once;
      CollapseIsIdempotent(Stripped(src));
    }
  }

  /** Every comment between a '/' and a '*' is such an input: what is left reads as an opening
      mark, and the second strip takes it away. */
  lemma CommentBetweenMarks(body: string)
    requires CommentCloses(body)
    ensures var once := Collapsed(Stripped("/" + ("/*" + body) + "*"));
            Collapsed(Stripped(once)) != once
  {
    var comment := Comment("/*" + body);
    var pieces := [Plain('/'), comment, Plain('*')];
    ThreePieces(Plain('/'), comment, Plain('*'));
    assert ("/*" + body)[2..] == body;
    assert Segmented(pieces) by {
      assert pieces[1..] == [comment, Plain('*')] && pieces[1..][1..] == [Plain('*')];
      assert Segmented([Plain('*')]);
    }
    SegmentationIsUnique(pieces);
    KeptOfThree(comment);
    StripTwiceIff("/" + ("/*" + body) + "*");
  }

  lemma ThreePieces(a: Piece, b: Piece, c: Piece)
    ensures Source([a, b, c]) == TextOf(a) + TextOf(b) + TextOf(c)
  {
    assert [a, b, c][1..] == [b, c] && [b, c][1..] == [c] && [c][1..] == [];
    assert Source([c]) == TextOf(c) + "";
  }

  lemma KeptOfThree(comment: Piece)
    requires comment.Comment?
    ensures JoinsMark(Kept([Plain('/'), comment, Plain('*')]))
  {
    var pieces := [Plain('/'), comment, Plain('*')];
    assert pieces[1..] == [comment, Plain('*')] && pieces[1..][1..] == [Plain('*')] && [Plain('*')][1..] == [];
    assert Kept([Plain('*')]) == [Plain('*')] + Kept([]);
    assert Kept([comment, Plain('*')]) == Kept([Plain('*')]);
    assert Kept(pieces) == [Plain('/')] + Kept([comment, Plain('*')]);
    assert Kept(pieces)[0] == Plain('/') && Kept(pieces)[0 + 1] == Plain('*');
  }
}
