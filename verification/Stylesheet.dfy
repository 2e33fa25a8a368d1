/** Comment stripping for the served stylesheet (stylesheet_asset.go): the scanner against a
    segmentation of the source into strings, comments and other characters, in the manner of sections
    4.3.2 and 4.3.5 of CSS Syntax Module Level 3. Unlike that standard, a newline does not end a
    string here. Text is modelled as its code points; every byte the scanner looks for is ASCII. */
module Stylesheet {
  import opened Text

  predicate IsQuote(c: char)
  {
    c == '"' || c == '\''
  }

  // ---------------------------------------------------------------- segmentation

  /** A piece of the source: one other byte, a string with its quotes, or a comment with its marks. */
  datatype Piece = Plain(c: char) | Quoted(text: string) | Comment(text: string)

  function TextOf(p: Piece): string
  {
    match p
    case Plain(c) => [c]
    case Quoted(text) => text
    case Comment(text) => text
  }

  function Source(pieces: seq<Piece>): string
  {
    if pieces == [] then "" else TextOf(pieces[0]) + Source(pieces[1..])
  }

  /** What follows an opening quote: escapes and other bytes, up to the same quote at the very end. */
  predicate Closes(s: string, quote: char)
  {
    if s == "" then false
    else if s[0] == '\\' then |s| > 1 && Closes(s[2..], quote)
    else if s[0] == quote then |s| == 1
    else Closes(s[1..], quote)
  }

  /** The same with no closing quote. */
  predicate StaysOpen(s: string, quote: char)
  {
    if s == "" then true
    else if s[0] == '\\' then |s| == 1 || StaysOpen(s[2..], quote)
    else s[0] != quote && StaysOpen(s[1..], quote)
  }

  predicate MarkAt(s: string, k: nat)
  {
    k + 1 < |s| && s[k] == '*' && s[k + 1] == '/'
  }

  /** What follows an opening mark: anything, up to the first closing mark at the very end. */
  predicate CommentCloses(s: string)
  {
    |s| >= 2 && MarkAt(s, |s| - 2) && forall k :: 0 <= k < |s| - 2 ==> !MarkAt(s, k)
  }

  predicate CommentStaysOpen(s: string)
  {
    forall k :: 0 <= k < |s| ==> !MarkAt(s, k)
  }

  predicate Opens(s: string)
  {
    |s| >= 2 && s[0] == '/' && s[1] == '*'
  }

  /** A piece on its own; only the last piece may lack its end. */
  predicate PieceOk(p: Piece, last: bool)
  {
    match p
    case Plain(c) => !IsQuote(c)
    case Quoted(t) => t != "" && IsQuote(t[0]) && (Closes(t[1..], t[0]) || (last && StaysOpen(t[1..], t[0])))
    case Comment(t) => Opens(t) && (CommentCloses(t[2..]) || (last && CommentStaysOpen(t[2..])))
  }

  /** A segmentation read left to right: no '/' and '*' that would have opened a comment. */
  predicate Segmented(pieces: seq<Piece>)
  {
    pieces == [] ||
    (PieceOk(pieces[0], |pieces| == 1) && !(pieces[0] == Plain('/') && |pieces| > 1 && pieces[1] == Plain('*')) &&
     Segmented(pieces[1..]))
  }

  function StringEnd(s: string, quote: char): (n: nat)
    ensures n <= |s|
  {
    if s == "" then 0
    else if s[0] == '\\' then if |s| == 1 then 1 else 2 + StringEnd(s[2..], quote)
    else if s[0] == quote then 1
    else 1 + StringEnd(s[1..], quote)
  }

  function CommentEnd(s: string): (n: nat)
    ensures n <= |s|
  {
    if s == "" then 0 else if MarkAt(s, 0) then 2 else 1 + CommentEnd(s[1..])
  }

  /** The piece a left-to-right scan reads first. */
  function FirstPiece(s: string): (p: Piece)
    requires s != ""
    ensures TextOf(p) != "" && TextOf(p) <= s
  {
    if IsQuote(s[0]) then Quoted(s[..1 + StringEnd(s[1..], s[0])])
    else if Opens(s) then Comment(s[..2 + CommentEnd(s[2..])])
    else Plain(s[0])
  }

  function Segments(s: string): (pieces: seq<Piece>)
    decreases |s|
  {
    if s == "" then [] else [FirstPiece(s)] + Segments(s[|TextOf(FirstPiece(s))|..])
  }

  lemma {:induction false} StringEndCloses(s: string, quote: char)
    ensures Closes(s[..StringEnd(s, quote)], quote) || (StringEnd(s, quote) == |s| && StaysOpen(s, quote))
    decreases |s|
  {
    var n := StringEnd(s, quote);
    if s == "" {
    } else if s[0] == '\\' && |s| > 1 {
      StringEndCloses(s[2..], quote);
      assert s[..n][2..] == s[2..][..n - 2];
    } else if s[0] != '\\' && s[0] != quote {
      StringEndCloses(s[1..], quote);
      assert s[..n][1..] == s[1..][..n - 1];
    }
  }

  lemma {:induction false} ClosesEndsThere(s: string, rest: string, quote: char)
    requires Closes(s, quote)
    ensures StringEnd(s + rest, quote) == |s|
    decreases |s|
  {
    if s[0] == '\\' {
      assert (s + rest)[2..] == s[2..] + rest;
      ClosesEndsThere(s[2..], rest, quote);
    } else if s[0] != quote {
      assert (s + rest)[1..] == s[1..] + rest;
      ClosesEndsThere(s[1..], rest, quote);
    }
  }

  lemma {:induction false} OpenEndsAtEnd(s: string, quote: char)
    requires StaysOpen(s, quote)
    ensures StringEnd(s, quote) == |s|
    decreases |s|
  {
    if s != "" {
      if s[0] == '\\' {
        if |s| > 1 {
          OpenEndsAtEnd(s[2..], quote);
        }
      } else {
        OpenEndsAtEnd(s[1..], quote);
      }
    }
  }

  lemma {:induction false} CommentEndIsFirst(s: string)
    ensures var n := CommentEnd(s);
            (n >= 2 && MarkAt(s, n - 2) && forall k :: 0 <= k < n - 2 ==> !MarkAt(s, k)) ||
            (n == |s| && CommentStaysOpen(s))
  {
    if s != "" && !MarkAt(s, 0) {
      CommentEndIsFirst(s[1..]);
      assert forall k :: 0 <= k < |s| - 1 ==> MarkAt(s[1..], k) == MarkAt(s, k + 1);
      var n := CommentEnd(s);
      forall k | 0 <= k < |s| && (CommentStaysOpen(s[1..]) || k < n - 2)
        ensures !MarkAt(s, k)
      {
        if k > 0 {
          assert !MarkAt(s[1..], k - 1);
        }
      }
    }
  }

  lemma CommentClosesThere(s: string, rest: string)
    requires CommentCloses(s)
    ensures CommentEnd(s + rest) == |s|
  {
    var all := s + rest;
    CommentEndIsFirst(all);
    var n := CommentEnd(all);
    assert MarkAt(all, |s| - 2);
    assert forall k :: 0 <= k < |s| - 2 ==> MarkAt(all, k) == MarkAt(s, k);
  }

  lemma CommentOpenToEnd(s: string)
    requires CommentStaysOpen(s)
    ensures CommentEnd(s) == |s|
  {
    CommentEndIsFirst(s);
  }

  /** The scan reads back exactly the piece that was written, whatever follows it. */
  lemma FirstPieceIs(p: Piece, rest: string)
    requires PieceOk(p, rest == "") && !(p == Plain('/') && rest != "" && rest[0] == '*')
    ensures TextOf(p) + rest != "" && FirstPiece(TextOf(p) + rest) == p
  {
    var s := TextOf(p) + rest;
    match p
    case Plain(c) =>
    case Quoted(t) =>
      assert s[1..] == t[1..] + rest;
      if Closes(t[1..], t[0]) {
        ClosesEndsThere(t[1..], rest, t[0]);
      } else {
        assert t[1..] + rest == t[1..];
        OpenEndsAtEnd(t[1..], t[0]);
      }
      assert s[..|t|] == t;
    case Comment(t) =>
      assert s[2..] == t[2..] + rest;
      if CommentCloses(t[2..]) {
        CommentClosesThere(t[2..], rest);
      } else {
        assert t[2..] + rest == t[2..];
        CommentOpenToEnd(t[2..]);
      }
      assert s[..|t|] == t;
  }

  /** There is one segmentation of every source, the one a left-to-right scan finds. */
  lemma {:induction false} SegmentationIsUnique(pieces: seq<Piece>)
    requires Segmented(pieces)
    ensures Segments(Source(pieces)) == pieces
  {
    if pieces != [] {
      var rest := Source(pieces[1..]);
      FirstPieceIs(pieces[0], rest);
      assert (TextOf(pieces[0]) + rest)[|TextOf(pieces[0])|..] == rest;
      SegmentationIsUnique(pieces[1..]);
    }
  }

  lemma FirstPieceOk(s: string)
    requires s != ""
    ensures PieceOk(FirstPiece(s), TextOf(FirstPiece(s)) == s)
  {
    var p := FirstPiece(s);
    if IsQuote(s[0]) {
      StringEndCloses(s[1..], s[0]);
      assert TextOf(p)[1..] == s[1..][..StringEnd(s[1..], s[0])];
    } else if Opens(s) {
      CommentEndIsFirst(s[2..]);
      var body := TextOf(p)[2..];
      assert body == s[2..][..CommentEnd(s[2..])];
      assert forall k :: 0 <= k < |body| - 1 ==> MarkAt(body, k) == MarkAt(s[2..], k);
    }
  }

  lemma {:induction false} SegmentsSegment(s: string)
    ensures Segmented(Segments(s)) && Source(Segments(s)) == s
    decreases |s|
  {
    if s != "" {
      var p := FirstPiece(s);
      var rest := s[|TextOf(p)|..];
      SegmentsSegment(rest);
      FirstPieceOk(s);
      assert s == TextOf(p) + rest;
      assert ([p] + Segments(rest))[1..] == Segments(rest);
    }
  }

  // ---------------------------------------------------------------- the scanner

  /** However a source is cut into strings, comments and other characters, stripping it leaves
      exactly the pieces that are not comments, unchanged. */
  lemma StrippingRemovesComments(pieces: seq<Piece>)
    requires Segmented(pieces)
    ensures Stripped(Source(pieces)) == Source(Kept(pieces))
  {
    SegmentationIsUnique(pieces);
  }

  function Kept(pieces: seq<Piece>): seq<Piece>
  {
    if pieces == [] then []
    else if pieces[0].Comment? then Kept(pieces[1..])
    else [pieces[0]] + Kept(pieces[1..])
  }

  /** The source without its comments. */
  function Stripped(s: string): string
  {
    Source(Kept(Segments(s)))
  }

  lemma StrippedStep(s: string)
    requires s != ""
    ensures var p := FirstPiece(s);
            var rest := s[|TextOf(p)|..];
            Stripped(s) == if p.Comment? then Stripped(rest) else TextOf(p) + Stripped(rest)
  {
    var p := FirstPiece(s);
    var rest := s[|TextOf(p)|..];
    assert ([p] + Segments(rest))[1..] == Segments(rest);
    assert !p.Comment? ==> ([p] + Kept(Segments(rest)))[1..] == Kept(Segments(rest));
  }

  /** The scanner's progress: what the bytes from `i` on still add, given the open quote. */
  function Remaining(s: string, quote: Option<char>): string
  {
    match quote
    case None => Stripped(s)
    case Some(q) =>
      var n := StringEnd(s, q);
      s[..n] + Stripped(s[n..])
  }

  /** bytes.Index for the closing mark. */
  method IndexOfMark(s: string) returns (end: int)
    ensures end < 0 ==> CommentStaysOpen(s)
    ensures end >= 0 ==> end + 1 < |s| && CommentEnd(s) == end + 2
  {
    end := 0;
    while end + 1 < |s|
      invariant 0 <= end <= |s| && CommentEnd(s) == end + CommentEnd(s[end..])
      invariant forall k :: 0 <= k < end ==> !MarkAt(s, k)
    {
      if s[end] == '*' && s[end + 1] == '/' {
        return;
      }
      assert s[end..][1..] == s[end + 1..];
      end := end + 1;
    }
    end := -1;
  }

  lemma Appended(out: string, bytes: string, rest: string)
    ensures (out + bytes) + rest == out + (bytes + rest)
  {
  }

  /** One turn of the loop: bytes read, bytes written, and the quote still open. */
  datatype Turn = Turn(read: nat, bytes: string, quote: Option<char>)

  function NextTurn(s: string, quote: Option<char>): (t: Turn)
    requires s != "" && (quote.Some? ==> IsQuote(quote.value))
    ensures 0 < t.read <= |s| && (t.quote.Some? ==> IsQuote(t.quote.value))
  {
    if quote.Some? then
      if s[0] == '\\' && |s| > 1 then Turn(2, [s[0], s[1]], quote)
      else Turn(1, [s[0]], if s[0] == quote.value then None else quote)
    else if IsQuote(s[0]) then Turn(1, [s[0]], Some(s[0]))
    else if Opens(s) then Turn(2 + CommentEnd(s[2..]), "", None)
    else Turn(1, [s[0]], None)
  }

  lemma TurnKeepsResult(s: string, quote: Option<char>)
    requires s != "" && (quote.Some? ==> IsQuote(quote.value))
    ensures var t := NextTurn(s, quote);
            Remaining(s, quote) == t.bytes + Remaining(s[t.read..], t.quote)
  {
    if quote.Some? {
      if s[0] == '\\' && |s| > 1 {
        QuotedEscape(s, quote.value);
      } else {
        QuotedByte(s, quote.value);
      }
    } else if IsQuote(s[0]) {
      OpeningQuote(s);
    } else {
      StrippedStep(s);
    }
  }

  /** All the turns still to come. */
  function Turns(s: string, quote: Option<char>): string
    requires quote.Some? ==> IsQuote(quote.value)
    decreases |s|
  {
    if s == "" then ""
    else
      var t := NextTurn(s, quote);
      t.bytes + Turns(s[t.read..], t.quote)
  }

  lemma {:induction false} TurnsStrip(s: string, quote: Option<char>)
    requires quote.Some? ==> IsQuote(quote.value)
    ensures Turns(s, quote) == Remaining(s, quote)
    decreases |s|
  {
    if s != "" {
      var t := NextTurn(s, quote);
      TurnKeepsResult(s, quote);
      TurnsStrip(s[t.read..], t.quote);
    }
  }

  lemma Moved(out: string, bytes: string, next: string, rest: string, all: string)
    requires rest == bytes + next && out + rest == all
    ensures (out + bytes) + next == all
  {
    Appended(out, bytes, next);
  }

  /** The switch in stripStylesheetComments; an unterminated comment reads the rest of the source. */
  method OneTurn(src: string, i: nat, open: Option<char>) returns (t: Turn)
    requires i < |src| && (open.Some? ==> IsQuote(open.value))
    ensures t == NextTurn(src[i..], open)
  {
    var c := src[i];
    t := Turn(1, [c], open);
    if open != None {
      if c == '\\' && i + 1 < |src| {
        t := Turn(2, [c, src[i + 1]], open);
      } else if c == open.value {
        t := Turn(1, [c], None);
      }
    } else if c == '"' || c == '\'' {
      t := Turn(1, [c], Some(c));
    } else if c == '/' && i + 1 < |src| && src[i + 1] == '*' {
      var end := IndexOfMark(src[i + 2..]);
      if end < 0 {
        CommentOpenToEnd(src[i + 2..]);
        return Turn(|src| - i, "", None);
      }
      t := Turn(2 + end + 2, "", None);
    }
  }

  /** The loop of stripStylesheetComments. */
  method Scan(src: string) returns (out: string)
    ensures out == Stripped(src)
  {
    out := "";
    var quote: Option<char> := None;
    var i := 0;
    ghost var all := Turns(src, None);
    ghost var rest := all;
    assert src[0..] == src;
    while i < |src|
      invariant i <= |src| && (quote.Some? ==> IsQuote(quote.value))
      invariant rest == Turns(src[i..], quote)
      invariant out + rest == all
    {
      var t := OneTurn(src, i, quote);
      ghost var next := Turns(src[i + t.read..], t.quote);
      Moved(out, t.bytes, next, rest, all);
      out, i, quote, rest := out + t.bytes, i + t.read, t.quote, next;
    }
    assert src[i..] == "";
    TurnsStrip(src, None);
  }

  lemma OpeningQuote(s: string)
    requires s != "" && IsQuote(s[0])
    ensures Remaining(s, None) == [s[0]] + Remaining(s[1..], Some(s[0]))
  {
    var n := StringEnd(s[1..], s[0]);
    StrippedStep(s);
    assert FirstPiece(s) == Quoted(s[..1 + n]);
    assert s[..1 + n] == [s[0]] + s[1..][..n];
    assert s[1 + n..] == s[1..][n..];
    Appended([s[0]], s[1..][..n], Stripped(s[1..][n..]));
  }

  lemma QuotedEscape(s: string, q: char)
    requires |s| > 1 && s[0] == '\\'
    ensures Remaining(s, Some(q)) == [s[0], s[1]] + Remaining(s[2..], Some(q))
  {
    var n := StringEnd(s[2..], q);
    assert s[..2 + n] == [s[0], s[1]] + s[2..][..n] && s[2 + n..] == s[2..][n..];
    Appended([s[0], s[1]], s[2..][..n], Stripped(s[2..][n..]));
  }

  /** A quoted byte that starts no escape; the quote itself leaves the string. */
  lemma QuotedByte(s: string, q: char)
    requires s != "" && IsQuote(q) && !(s[0] == '\\' && |s| > 1)
    ensures Remaining(s, Some(q)) == [s[0]] + Remaining(s[1..], if s[0] == q then None else Some(q))
  {
    if s[0] == '\\' || s[0] == q {
      assert s[..1] == [s[0]];
    } else {
      var n := StringEnd(s[1..], q);
      assert s[..1 + n] == [s[0]] + s[1..][..n] && s[1 + n..] == s[1..][n..];
      Appended([s[0]], s[1..][..n], Stripped(s[1..][n..]));
    }
  }

  // ---------------------------------------------------------------- in so many characters

  /** No closing mark within the text. */
  predicate Unmarked(body: string)
  {
    forall k :: 0 <= k < |body| - 1 ==> !(body[k] == '*' && body[k + 1] == '/')
  }

  /** A comment goes, whatever quotes and opening marks it holds and whatever follows it; one that is
      never closed goes to the end. */
  lemma CommentGoes(body: string, rest: string)
    requires Unmarked(body)
    ensures Stripped("/*" + body + "*/" + rest) == Stripped(rest)
    ensures Stripped("/*" + body) == ""
  {
    var closed := "/*" + body + "*/";
    assert closed[2..] == body + "*/";
    FirstPieceIs(Comment(closed), rest);
    StrippedStep(closed + rest);
    assert (closed + rest)[|closed|..] == rest;
    var open := "/*" + body;
    assert open[2..] == body && open + "" == open;
    FirstPieceIs(Comment(open), "");
    StrippedStep(open);
    assert Stripped(open[|open|..]) == "";
  }

  lemma {:induction false} ClosesAtQuote(body: string, q: char)
    requires q != '\\' && q !in body && '\\' !in body
    ensures Closes(body + [q], q)
  {
    if body != "" {
      assert (body + [q])[1..] == body[1..] + [q];
      ClosesAtQuote(body[1..], q);
    }
  }

  /** A string stays, in either kind of quotes, whatever comment marks and other quotes it holds. */
  lemma StringStays(q: char, body: string, rest: string)
    requires (q == '"' || q == '\'') && q !in body && '\\' !in body
    ensures Stripped([q] + body + [q] + rest) == [q] + body + [q] + Stripped(rest)
  {
    var quoted := [q] + body + [q];
    assert quoted[1..] == body + [q];
    ClosesAtQuote(body, q);
    FirstPieceIs(Quoted(quoted), rest);
    StrippedStep(quoted + rest);
    assert (quoted + rest)[|quoted|..] == rest;
  }
}
