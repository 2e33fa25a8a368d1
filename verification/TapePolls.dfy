/** A client that keeps the draft tape current with "?since=" polls: what prepending the answers
    builds while picks 1, 2, 3, ... arrive (app/draft/fragment.go, app/draft/page.server.go). */
module TapePolls {
  import opened Text
  import opened DraftTape

  // ---------------------------------------------------------------- the tape of a draft

  datatype LeaguePick = LeaguePick(number: nat, card: string)

  datatype LeagueRound = LeagueRound(round: nat, first: nat, last: nat, picks: seq<LeaguePick>)

  function Closed(p: LeaguePick): Pick
  {
    Pick(p.number, p.card, false, false, NoDetail)
  }

  function ClosedAll(picks: seq<LeaguePick>): (cards: seq<Pick>)
    ensures |cards| == |picks| && forall i :: 0 <= i < |picks| ==> cards[i] == Closed(picks[i])
  {
    seq(|picks|, i requires 0 <= i < |picks| => Closed(picks[i]))
  }

  function Props(round: LeagueRound): Round
  {
    Round(round.round, round.first, round.last, ClosedAll(round.picks), true)
  }

  function PropsAll(rounds: seq<LeagueRound>): (out: seq<Round>)
    ensures |out| == |rounds| && forall i :: 0 <= i < |rounds| ==> out[i] == Props(rounds[i])
  {
    seq(|rounds|, i requires 0 <= i < |rounds| => Props(rounds[i]))
  }

  /** tapeRoundsProps: every round with its header, every row closed. */
  method TapeRoundsProps(rounds: seq<LeagueRound>) returns (out: seq<Round>)
    ensures out == PropsAll(rounds)
  {
    out := [];
    for i := 0 to |rounds|
      invariant |out| == i && forall k :: 0 <= k < i ==> out[k] == Props(rounds[k])
    {
      var round := rounds[i];
      var picks: seq<Pick> := [];
      for j := 0 to |round.picks|
        invariant picks == ClosedAll(round.picks)[..j]
      {
        picks := picks + [Pick(round.picks[j].number, round.picks[j].card, false, false, NoDetail)];
      }
      assert ClosedAll(round.picks)[..|round.picks|] == ClosedAll(round.picks);
      out := out + [Round(round.round, round.first, round.last, picks, true)];
    }
  }

  function Min(a: nat, b: nat): nat
  {
    if a < b then a else b
  }

  /** Picks hi, hi - 1, ..., lo + 1. */
  function Down(hi: nat, lo: nat, card: nat -> string): seq<Pick>
  {
    if hi <= lo then [] else [Closed(LeaguePick(hi, card(hi)))] + Down(hi - 1, lo, card)
  }

  /** Round `r` of a draft with `n` picks made by `t` teams, newest pick first. */
  function RoundAt(n: nat, t: nat, r: nat, card: nat -> string): Round
    requires r > 0
  {
    Round(r, (r - 1) * t + 1, r * t, Down(Min(n, r * t), (r - 1) * t, card), true)
  }

  function TapeFrom(n: nat, t: nat, r: nat, card: nat -> string): seq<Round>
  {
    if r == 0 then [] else [RoundAt(n, t, r, card)] + TapeFrom(n, t, r - 1, card)
  }

  /** How many rounds `n` picks have opened. */
  function RoundsOf(n: nat, t: nat): (r: nat)
    requires t > 0
    ensures n <= r * t && (r > 0 ==> (r - 1) * t < n)
  {
    if n == 0 then 0 else if n <= t then 1 else 1 + RoundsOf(n - t, t)
  }

  /** The full tape, newest round first. */
  function FullTape(n: nat, t: nat, card: nat -> string): seq<Round>
    requires t > 0
  {
    TapeFrom(n, t, RoundsOf(n, t), card)
  }

  // ---------------------------------------------------------------- the league's own rounds

  /** The round of a pick among `t` teams. */
  function RoundNumber(number: nat, t: nat): nat
    requires number > 0 && t > 0
  {
    (number - 1) / t + 1
  }

  /** The picks among the first `n` that belong to round `r`, newest first. */
  function PicksOf(n: nat, t: nat, r: nat, card: nat -> string): seq<LeaguePick>
    requires t > 0
  {
    if n == 0 then []
    else (if RoundNumber(n, t) == r then [LeaguePick(n, card(n))] else []) + PicksOf(n - 1, t, r, card)
  }

  function LeagueFrom(n: nat, t: nat, r: nat, card: nat -> string): seq<LeagueRound>
    requires t > 0
  {
    if r == 0 then []
    else [LeagueRound(r, (r - 1) * t + 1, r * t, PicksOf(n, t, r, card))] + LeagueFrom(n, t, r - 1, card)
  }

  /** The league's rounds after `n` picks: grouped by round, newest round first. */
  function LeagueRounds(n: nat, t: nat, card: nat -> string): seq<LeagueRound>
    requires t > 0
  {
    LeagueFrom(n, t, if n == 0 then 0 else RoundNumber(n, t), card)
  }

  lemma {:induction false} Times(a: nat, b: nat, t: nat)
    ensures a < b ==> a * t + t <= b * t
    decreases b
  {
    if a + 1 < b {
      Times(a, b - 1, t);
    }
    assert b > 0 ==> b * t == (b - 1) * t + t;
  }

  /** Round `r` holds the picks from (r - 1) * t + 1 to r * t. */
  lemma RoundHolds(number: nat, t: nat, r: nat)
    requires number > 0 && t > 0 && r > 0
    ensures RoundNumber(number, t) == r <==> (r - 1) * t < number <= r * t
  {
    var q := (number - 1) / t;
    assert number - 1 == q * t + (number - 1) % t;
    Times(q, r - 1, t);
    Times(r - 1, q, t);
    assert r * t == (r - 1) * t + t;
  }

  /** The round's bounds, kept out of the induction over its picks. */
  lemma {:induction false} PicksBetween(n: nat, t: nat, r: nat, lo: nat, hi: nat, card: nat -> string)
    requires t > 0 && lo <= hi && forall k :: 1 <= k <= n ==> (RoundNumber(k, t) == r <==> lo < k <= hi)
    ensures ClosedAll(PicksOf(n, t, r, card)) == Down(Min(n, hi), lo, card)
  {
    if n > 0 {
      PicksBetween(n - 1, t, r, lo, hi, card);
    }
  }

  lemma {:induction false} LeagueFromIsTape(n: nat, t: nat, r: nat, card: nat -> string)
    requires t > 0
    ensures PropsAll(LeagueFrom(n, t, r, card)) == TapeFrom(n, t, r, card)
  {
    if r > 0 {
      forall k | 1 <= k <= n
        ensures RoundNumber(k, t) == r <==> (r - 1) * t < k <= r * t
      {
        RoundHolds(k, t, r);
      }
      Times(r - 1, r, t);
      PicksBetween(n, t, r, (r - 1) * t, r * t, card);
      LeagueFromIsTape(n, t, r - 1, card);
    }
  }

  /** The tape's rounds, as the league groups the first `n` picks and the page maps them, are the
      full tape that the polls below are measured against. */
  lemma LeagueRoundsAreFullTape(n: nat, t: nat, card: nat -> string)
    requires t > 0
    ensures PropsAll(LeagueRounds(n, t, card)) == FullTape(n, t, card)
  {
    var r := RoundsOf(n, t);
    if n > 0 {
      RoundHolds(n, t, r);
    }
    LeagueFromIsTape(n, t, r, card);
  }

  lemma {:induction false} DownSplits(hi: nat, mid: nat, lo: nat, card: nat -> string)
    requires lo <= mid <= hi
    ensures Down(hi, lo, card) == Down(hi, mid, card) + Down(mid, lo, card)
  {
    if hi > mid {
      DownSplits(hi - 1, mid, lo, card);
    }
  }

  lemma {:induction false} DownAt(hi: nat, i: nat, card: nat -> string)
    requires i < hi
    ensures |Down(hi, 0, card)| == hi && Down(hi, 0, card)[i] == Closed(LeaguePick(hi - i, card(hi - i)))
    decreases hi
  {
    if hi > 1 {
      DownAt(hi - 1, if i == 0 then 0 else i - 1, card);
    }
  }

  lemma {:induction false} TapePicks(n: nat, t: nat, r: nat, card: nat -> string)
    requires t > 0 && (r > 0 ==> (r - 1) * t < n)
    ensures Picks(TapeFrom(n, t, r, card)) == Down(Min(n, r * t), 0, card)
  {
    if r > 0 {
      assert r * t == (r - 1) * t + t;
      if r > 1 {
        assert (r - 1 - 1) * t == (r - 1) * t - t;
      }
      TapePicks(n, t, r - 1, card);
      DownSplits(Min(n, r * t), (r - 1) * t, 0, card);
      assert ([RoundAt(n, t, r, card)] + TapeFrom(n, t, r - 1, card))[1..] == TapeFrom(n, t, r - 1, card);
    }
  }

  /** The full tape lists every pick once, newest first, closed and without details: what the
      theorems about the opened row ask for. */
  lemma FullTapeLists(n: nat, t: nat, card: nat -> string)
    requires t > 0
    ensures var picks := Picks(FullTape(n, t, card));
            |picks| == n && NumbersDiffer(picks) &&
            forall i :: 0 <= i < n ==> picks[i] == Pick(n - i, card(n - i), false, false, NoDetail)
  {
    var r := RoundsOf(n, t);
    TapePicks(n, t, r, card);
    assert Min(n, r * t) == n;
    if n > 0 {
      DownAt(n, 0, card);
    }
    forall i | 0 <= i < n
      ensures |Down(n, 0, card)| == n && Down(n, 0, card)[i] == Pick(n - i, card(n - i), false, false, NoDetail)
    {
      DownAt(n, i, card);
    }
  }

  // ---------------------------------------------------------------- rows

  datatype Row = Header(round: nat) | Card(pick: Pick)

  function Cards(picks: seq<Pick>): (rows: seq<Row>)
    ensures |rows| == |picks|
  {
    seq(|picks|, i requires 0 <= i < |picks| => Card(picks[i]))
  }

  function RoundRows(round: Round): seq<Row>
  {
    (if round.showHeader then [Header(round.round)] else []) + Cards(round.picks)
  }

  /** The rows an answer renders, top to bottom. */
  function Rows(rounds: seq<Round>): seq<Row>
  {
    if rounds == [] then [] else RoundRows(rounds[0]) + Rows(rounds[1..])
  }

  lemma RowsOfCons(round: Round, rest: seq<Round>)
    ensures Rows([round] + rest) == RoundRows(round) + Rows(rest)
  {
    assert ([round] + rest)[1..] == rest;
  }

  // ---------------------------------------------------------------- one poll

  function Max(a: nat, b: nat): nat
  {
    if a < b then b else a
  }

  lemma {:induction false} AboveDown(hi: nat, lo: nat, since: nat, card: nat -> string)
    ensures Above(Down(hi, lo, card), since) == Down(hi, Max(lo, since), card)
  {
    if hi > lo {
      AboveDown(hi - 1, lo, since, card);
      assert Down(hi, lo, card)[1..] == Down(hi - 1, lo, card);
    }
  }

  lemma RoundBounds(r: nat, t: nat, k: nat)
    requires k < r
    ensures k * t <= (r - 1) * t == r * t - t
  {
  }

  /** The rounds above `q` of the tape, which a cursor in round `q` or at its end has not seen. */
  function NewRounds(n: nat, t: nat, r: nat, q: nat, card: nat -> string): seq<Row>
  {
    if r <= q then [] else RoundRows(RoundAt(n, t, r, card)) + NewRounds(n, t, r - 1, q, card)
  }

  lemma {:induction false} FullSplits(n: nat, t: nat, r: nat, q: nat, card: nat -> string)
    requires q <= r
    ensures Rows(TapeFrom(n, t, r, card)) == NewRounds(n, t, r, q, card) + Rows(TapeFrom(n, t, q, card))
  {
    if r > q {
      RowsOfCons(RoundAt(n, t, r, card), TapeFrom(n, t, r - 1, card));
      FullSplits(n, t, r - 1, q, card);
    }
  }

  /** A round the cursor has not reached is sent whole, with its header. */
  lemma NewRoundSent(n: nat, t: nat, r: nat, since: nat, rest: seq<Round>, card: nat -> string)
    requires t > 0 && r > 0 && since <= (r - 1) * t < n
    ensures Filtered([RoundAt(n, t, r, card)] + rest, since) == [RoundAt(n, t, r, card)] + Filtered(rest, since)
  {
    var top := RoundAt(n, t, r, card);
    AboveDown(Min(n, r * t), (r - 1) * t, since, card);
    assert r * t == (r - 1) * t + t;
    assert top.picks != [];
    assert ([top] + rest)[1..] == rest;
  }

  lemma {:induction false} PollSplits(n: nat, t: nat, r: nat, q: nat, since: nat, card: nat -> string)
    requires t > 0 && q <= r && since <= q * t && (r > 0 ==> (r - 1) * t < n)
    ensures Rows(Filtered(TapeFrom(n, t, r, card), since)) ==
            NewRounds(n, t, r, q, card) + Rows(Filtered(TapeFrom(n, t, q, card), since))
  {
    if r > q {
      var top, rest := RoundAt(n, t, r, card), TapeFrom(n, t, r - 1, card);
      RoundBounds(r, t, q);
      NewRoundSent(n, t, r, since, rest, card);
      RowsOfCons(top, Filtered(rest, since));
      if r > 1 {
        assert (r - 1 - 1) * t == (r - 1) * t - t;
      }
      PollSplits(n, t, r - 1, q, since, card);
    }
  }

  /** Nothing at or below a cursor at the end of round `q` is sent again. */
  lemma {:induction false} NothingOld(n: nat, t: nat, q: nat, since: nat, card: nat -> string)
    requires q * t <= since || n <= since
    ensures Filtered(TapeFrom(n, t, q, card), since) == []
  {
    if q > 0 {
      AboveDown(Min(n, q * t), (q - 1) * t, since, card);
      RoundBounds(q, t, q - 1);
      NothingOld(n, t, q - 1, since, card);
      assert ([RoundAt(n, t, q, card)] + TapeFrom(n, t, q - 1, card))[1..] == TapeFrom(n, t, q - 1, card);
    }
  }

  /** Rounds that both drafts have finished read the same. */
  lemma {:induction false} SameOldRounds(n: nat, m: nat, t: nat, q: nat, card: nat -> string)
    requires (q * t <= n && q * t <= m) || n == m
    ensures TapeFrom(n, t, q, card) == TapeFrom(m, t, q, card)
  {
    if q > 0 {
      RoundBounds(q, t, q - 1);
      SameOldRounds(n, m, t, q - 1, card);
    }
  }

  /** A poll at cursor `c` of a draft with `n` picks. */
  function Answer(n: nat, c: nat, t: nat, card: nat -> string): seq<Row>
    requires t > 0
  {
    Rows(Filtered(FullTape(n, t, card), c))
  }

  predicate AtRoundEnd(c: nat, t: nat)
    requires t > 0
  {
    c % t == 0
  }

  lemma RoundEnds(c: nat, t: nat)
    requires t > 0
    ensures AtRoundEnd(c, t) <==> c == RoundsOf(c, t) * t
  {
    var q := RoundsOf(c, t);
    if c != q * t {
      assert c == (q - 1) * t + (c - (q - 1) * t) && 0 < c - (q - 1) * t < t;
      Remainder(c, q - 1, c - (q - 1) * t, t);
    } else {
      Remainder(c, q, 0, t);
    }
  }

  lemma Remainder(c: nat, k: nat, rest: nat, t: nat)
    requires t > 0 && c == k * t + rest && rest < t
    ensures c % t == rest
  {
    var d := c / t;
    assert c == d * t + c % t;
    Times(d, k, t);
    Times(k, d, t);
  }

  lemma RoundsGrow(c: nat, n: nat, t: nat)
    requires t > 0 && c <= n
    ensures RoundsOf(c, t) <= RoundsOf(n, t)
  {
    var q, r := RoundsOf(c, t), RoundsOf(n, t);
    if r < q {
      RoundBounds(q, t, r);
    }
  }

  /** Prepending one answer to any rows: it is the full tape again exactly when the rows were the
      full tape of the cursor and the cursor stood at a round's end (or nothing was new). Within a
      round the new cards arrive above a header that is already on the page. */
  lemma OnePoll(n: nat, c: nat, t: nat, card: nat -> string, held: seq<Row>)
    requires t > 0 && c <= n
    ensures Answer(n, c, t, card) + held == Rows(FullTape(n, t, card)) <==>
            (c == n || AtRoundEnd(c, t)) && held == Rows(FullTape(c, t, card))
  {
    var q, r := RoundsOf(c, t), RoundsOf(n, t);
    RoundEnds(c, t);
    if c == n || c == q * t {
      PollAtEnd(n, c, t, q, card);
      SamePrefix(NewRounds(n, t, r, q, card), held, Rows(FullTape(c, t, card)));
    } else {
      PollWithin(n, c, t, q, card, held);
    }
  }

  lemma PollAtEnd(n: nat, c: nat, t: nat, q: nat, card: nat -> string)
    requires t > 0 && c <= n && q == RoundsOf(c, t) && (c == n || c == q * t)
    ensures Answer(n, c, t, card) == NewRounds(n, t, RoundsOf(n, t), q, card)
    ensures Rows(FullTape(n, t, card)) == NewRounds(n, t, RoundsOf(n, t), q, card) + Rows(FullTape(c, t, card))
  {
    var r := RoundsOf(n, t);
    RoundsGrow(c, n, t);
    FullSplits(n, t, r, q, card);
    PollSplits(n, t, r, q, c, card);
    NothingOld(n, t, q, c, card);
    SameOldRounds(n, c, t, q, card);
  }

  /** Within a round: the first row below the new rounds is a card in the one and a header in the
      other. */
  lemma PollWithin(n: nat, c: nat, t: nat, q: nat, card: nat -> string, held: seq<Row>)
    requires t > 0 && c < n && q == RoundsOf(c, t) && c != q * t
    ensures Answer(n, c, t, card) + held != Rows(FullTape(n, t, card))
  {
    var r := RoundsOf(n, t);
    RoundsGrow(c, n, t);
    FullSplits(n, t, r, q, card);
    PollSplits(n, t, r, q, c, card);
    MidRound(n, c, t, q, card);
    DiffersAfter(NewRounds(n, t, r, q, card), Rows(Filtered(TapeFrom(n, t, q, card), c)), held,
                 Rows(TapeFrom(n, t, q, card)));
  }

  lemma DiffersAfter(front: seq<Row>, a: seq<Row>, held: seq<Row>, b: seq<Row>)
    requires a != [] && b != [] && a[0] != b[0]
    ensures front + a + held != front + b
  {
    assert (front + a + held)[|front|] == a[0] && (front + b)[|front|] == b[0];
  }

  lemma SamePrefix(a: seq<Row>, b: seq<Row>, c: seq<Row>)
    ensures a + b == a + c <==> b == c
  {
    if a + b == a + c {
      assert b == (a + b)[|a|..] && c == (a + c)[|a|..];
    }
  }

  lemma MidRound(n: nat, c: nat, t: nat, q: nat, card: nat -> string)
    requires q > 0 && (q - 1) * t < c < n && c < q * t
    ensures Rows(Filtered(TapeFrom(n, t, q, card), c)) == Cards(Down(Min(n, q * t), c, card)) != []
    ensures Rows(Filtered(TapeFrom(n, t, q, card), c))[0].Card?
    ensures Rows(TapeFrom(n, t, q, card)) != [] && Rows(TapeFrom(n, t, q, card))[0].Header?
  {
    var top, rest := RoundAt(n, t, q, card), TapeFrom(n, t, q - 1, card);
    AboveDown(Min(n, q * t), (q - 1) * t, c, card);
    NothingOld(n, t, q - 1, c, card);
    assert ([top] + rest)[1..] == rest;
    var sent := top.(picks := Down(Min(n, q * t), c, card), showHeader := false);
    assert Filtered([top] + rest, c) == [sent];
    RowsOfCons(sent, []);
    RowsOfCons(top, rest);
  }

  // ---------------------------------------------------------------- whole chains

  /** Polls on a growing draft: each cursor is the latest pick already held. */
  predicate Growing(counts: seq<nat>)
  {
    forall i, j :: 0 <= i < j < |counts| ==> counts[i] <= counts[j]
  }

  /** The rows held after a full render at `counts[0]` picks and a poll at each later count. */
  function Held(counts: seq<nat>, t: nat, card: nat -> string): seq<Row>
    requires t > 0 && counts != []
  {
    var k := |counts| - 1;
    if k == 0 then Rows(FullTape(counts[0], t, card))
    else Answer(counts[k], counts[k - 1], t, card) + Held(counts[..k], t, card)
  }

  /** Every poll that brought something found its cursor at a round's end. */
  predicate PolledAtRoundEnds(counts: seq<nat>, t: nat)
    requires t > 0
  {
    var k := |counts| - 1;
    k <= 0 ||
    ((counts[k - 1] == counts[k] || AtRoundEnd(counts[k - 1], t)) && PolledAtRoundEnds(counts[..k], t))
  }

  /** The page then shows the full tape, row for row, and otherwise it does not. */
  lemma {:induction false} ChainIsFullTapeIff(counts: seq<nat>, t: nat, card: nat -> string)
    requires t > 0 && counts != [] && Growing(counts)
    ensures Held(counts, t, card) == Rows(FullTape(counts[|counts| - 1], t, card)) <==> PolledAtRoundEnds(counts, t)
  {
    var k := |counts| - 1;
    if k > 0 {
      ChainIsFullTapeIff(counts[..k], t, card);
      OnePoll(counts[k], counts[k - 1], t, card, Held(counts[..k], t, card));
    }
  }

  /** Two teams, a page rendered after pick 1 and one poll after pick 2: the new card stands above
      the header of its round instead of below it. */
  lemma CardAboveItsHeader(card: nat -> string)
    ensures var one, two := Card(Closed(LeaguePick(1, card(1)))), Card(Closed(LeaguePick(2, card(2))));
            Held([1, 2], 2, card) == [two, Header(1), one] && Rows(FullTape(2, 2, card)) == [Header(1), two, one]
  {
    var one, two := Closed(LeaguePick(1, card(1))), Closed(LeaguePick(2, card(2)));
    OneRound(1, [one], card);
    OneRound(2, [two, one], card);
    var top := RoundAt(2, 2, 1, card);
    AboveDown(2, 0, 1, card);
    assert Down(2, 1, card) == [two] + Down(1, 1, card) == [two];
    assert Filtered([top], 1) == [top.(picks := [two], showHeader := false)] by {
      assert [top][1..] == [];
    }
    RowsOfCons(top.(picks := [two], showHeader := false), []);
    assert Answer(2, 1, 2, card) == [Card(two)];
    assert [1, 2][..1] == [1];
  }

  lemma OneRound(n: nat, picks: seq<Pick>, card: nat -> string)
    requires 1 <= n <= 2 && picks == if n == 1 then [Closed(LeaguePick(1, card(1)))]
                                     else [Closed(LeaguePick(2, card(2))), Closed(LeaguePick(1, card(1)))]
    ensures RoundAt(n, 2, 1, card) == Round(1, 1, 2, picks, true) && FullTape(n, 2, card) == [RoundAt(n, 2, 1, card)]
    ensures Rows(FullTape(n, 2, card)) == [Header(1)] + Cards(picks)
  {
    assert Down(1, 0, card) == [Closed(LeaguePick(1, card(1)))] + Down(0, 0, card);
    if n == 2 {
      assert Down(2, 0, card) == [Closed(LeaguePick(2, card(2)))] + Down(1, 0, card);
    }
    RowsOfCons(RoundAt(n, 2, 1, card), []);
  }

  function CardsIn(rows: seq<Row>): seq<Pick>
  {
    if rows == [] then []
    else if rows[0].Card? then [rows[0].pick] + CardsIn(rows[1..])
    else CardsIn(rows[1..])
  }

  function HeadersIn(rows: seq<Row>): seq<nat>
  {
    if rows == [] then []
    else if rows[0].Header? then [rows[0].round] + HeadersIn(rows[1..])
    else HeadersIn(rows[1..])
  }

  lemma {:induction false} InAppend(a: seq<Row>, b: seq<Row>)
    ensures CardsIn(a + b) == CardsIn(a) + CardsIn(b)
    ensures HeadersIn(a + b) == HeadersIn(a) + HeadersIn(b)
  {
    if a == [] {
      assert a + b == b;
    } else {
      assert (a + b)[1..] == a[1..] + b;
      InAppend(a[1..], b);
    }
  }

  lemma {:induction false} InCards(picks: seq<Pick>)
    ensures CardsIn(Cards(picks)) == picks && HeadersIn(Cards(picks)) == []
  {
    if picks != [] {
      InCards(picks[1..]);
      assert Cards(picks)[1..] == Cards(picks[1..]);
    }
  }

  function NumbersDown(hi: nat, lo: nat): seq<nat>
  {
    if hi <= lo then [] else [hi] + NumbersDown(hi - 1, lo)
  }

  lemma {:induction false} DownJoins(hi: nat, mid: nat, lo: nat, card: nat -> string)
    requires lo <= mid <= hi
    ensures Down(hi, mid, card) + Down(mid, lo, card) == Down(hi, lo, card)
  {
    if hi > mid {
      DownJoins(hi - 1, mid, lo, card);
    }
  }

  lemma {:induction false} NumbersJoin(hi: nat, mid: nat, lo: nat)
    requires lo <= mid <= hi
    ensures NumbersDown(hi, mid) + NumbersDown(mid, lo) == NumbersDown(hi, lo)
  {
    if hi > mid {
      NumbersJoin(hi - 1, mid, lo);
    }
  }

  lemma InRound(n: nat, t: nat, r: nat, card: nat -> string)
    requires r > 0
    ensures CardsIn(RoundRows(RoundAt(n, t, r, card))) == RoundAt(n, t, r, card).picks
    ensures HeadersIn(RoundRows(RoundAt(n, t, r, card))) == [r]
  {
    var round := RoundAt(n, t, r, card);
    InAppend([Header(r)], Cards(round.picks));
    InCards(round.picks);
    assert RoundRows(round) == [Header(r)] + Cards(round.picks);
    assert [Header(r)][1..] == [];
  }

  lemma {:induction false} InNewRounds(n: nat, t: nat, r: nat, q: nat, card: nat -> string)
    requires q <= r && (r > 0 ==> (r - 1) * t <= n) && q * t <= Max(n, q * t)
    ensures CardsIn(NewRounds(n, t, r, q, card)) == Down(Min(n, r * t), q * t, card)
    ensures HeadersIn(NewRounds(n, t, r, q, card)) == NumbersDown(r, q)
  {
    if r > q {
      RoundBounds(r, t, q);
      if r > 1 {
        assert (r - 1 - 1) * t == (r - 1) * t - t;
      }
      InNewRounds(n, t, r - 1, q, card);
      InRound(n, t, r, card);
      InAppend(RoundRows(RoundAt(n, t, r, card)), NewRounds(n, t, r - 1, q, card));
      DownJoins(Min(n, r * t), (r - 1) * t, q * t, card);
    }
  }

  /** One answer carries exactly the picks above its cursor and the headers of the rounds the
      cursor has not reached. */
  lemma AnswerCarries(n: nat, c: nat, t: nat, card: nat -> string)
    requires t > 0 && c <= n
    ensures CardsIn(Answer(n, c, t, card)) == Down(n, c, card)
    ensures HeadersIn(Answer(n, c, t, card)) == NumbersDown(RoundsOf(n, t), RoundsOf(c, t))
  {
    var q, r := RoundsOf(c, t), RoundsOf(n, t);
    RoundsGrow(c, n, t);
    PollSplits(n, t, r, q, c, card);
    InNewRounds(n, t, r, q, card);
    InAppend(NewRounds(n, t, r, q, card), Rows(Filtered(TapeFrom(n, t, q, card), c)));
    if c == n || c == q * t {
      NothingOld(n, t, q, c, card);
    } else {
      MidRound(n, c, t, q, card);
      InCards(Down(Min(n, q * t), c, card));
      if q * t <= n {
        DownJoins(n, q * t, c, card);
      }
    }
  }

  lemma FullCarries(n: nat, t: nat, card: nat -> string)
    requires t > 0
    ensures CardsIn(Rows(FullTape(n, t, card))) == Down(n, 0, card)
    ensures HeadersIn(Rows(FullTape(n, t, card))) == NumbersDown(RoundsOf(n, t), 0)
  {
    var r := RoundsOf(n, t);
    FullSplits(n, t, r, 0, card);
    InNewRounds(n, t, r, 0, card);
    assert Rows(FullTape(n, t, card)) == NewRounds(n, t, r, 0, card);
    assert Min(n, r * t) == n;
    assert CardsIn(NewRounds(n, t, r, 0, card)) == Down(n, 0 * t, card);
  }

  /** Whatever the cursors, no pick is lost or repeated and every header arrives exactly once. */
  lemma {:induction false} ChainCarriesEverythingOnce(counts: seq<nat>, t: nat, card: nat -> string)
    requires t > 0 && counts != [] && Growing(counts)
    ensures var n := counts[|counts| - 1];
            CardsIn(Held(counts, t, card)) == Down(n, 0, card) &&
            HeadersIn(Held(counts, t, card)) == NumbersDown(RoundsOf(n, t), 0)
  {
    var k := |counts| - 1;
    if k == 0 {
      FullCarries(counts[0], t, card);
    } else {
      var n, c := counts[k], counts[k - 1];
      ChainCarriesEverythingOnce(counts[..k], t, card);
      AnswerCarries(n, c, t, card);
      RoundsGrow(c, n, t);
      InAppend(Answer(n, c, t, card), Held(counts[..k], t, card));
      DownJoins(n, c, 0, card);
      NumbersJoin(RoundsOf(n, t), RoundsOf(c, t), 0);
    }
  }
}
