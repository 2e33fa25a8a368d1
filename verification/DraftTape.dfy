/** The draft-history tape of one fragment request (app/draft/fragment.go, page.server.go): the
    since filter, the round cap and the opened pick, in the order the handler applies them. */
module DraftTape {
  import opened Text

  const MAX_RENDERED_ROUNDS := 3

  datatype Detail = NoDetail | Detail(text: string)

  /** `card` stands for what a pick shows; a closed pick links to its own "?pick=". */
  datatype Pick = Pick(number: nat, card: string, open: bool, closeLink: bool, detail: Detail)

  datatype Round = Round(round: nat, first: nat, last: nat, picks: seq<Pick>, showHeader: bool)

  datatype ViewName = Tape | Board | Teams

  datatype History = History(
    rounds: seq<Round>, since: int, view: ViewName, hasOnClock: bool, roundsEmpty: bool, hasOlderRounds: bool)

  /** A request's query parameters, first value of each. */
  type Query = map<string, string>

  function Param(q: Query, key: string): string
  {
    if key in q then TrimSpace(q[key]) else ""
  }

  // ---------------------------------------------------------------- reading the query

  /** None when "since" is absent, negative or no number; a present but empty one counts as 0. */
  function Since(q: Query): (since: Option<nat>)
  {
    if "since" !in q then None
    else if Param(q, "since") == "" then Some(0)
    else
      match Atoi(Param(q, "since"))
      case None => None
      case Some(n) => if n < 0 then None else Some(n)
  }

  /** parseDraftHistoryPick: 0 for nothing to open. */
  function PickParam(q: Query): nat
  {
    match Atoi(Param(q, "pick"))
    case None => 0
    case Some(n) => if n < 1 then 0 else n
  }

  function LowerChar(c: char): char
  {
    if 'A' <= c <= 'Z' then c + ' ' else c
  }

  /** Folding A to Z is enough to recognise the words compared with here. */
  function Lower(s: string): string
  {
    seq(|s|, i requires 0 <= i < |s| => LowerChar(s[i]))
  }

  predicate AllRounds(q: Query)
  {
    Lower(Param(q, "rounds")) == "all"
  }

  /** normalizeDraftHistoryView. */
  function NormalizedView(raw: string): ViewName
  {
    if raw == "board" then Board else if raw == "teams" then Teams else Tape
  }

  /** How a link spells a view. */
  function ViewText(v: ViewName): string
  {
    match v
    case Tape => "tape"
    case Board => "board"
    case Teams => "teams"
  }

  /** The query of history_tape_url, from which the tape region refreshes itself. */
  function TapeQuery(q: Query): Query
  {
    var viewed := map["view" := ViewText(NormalizedView(Lower(Param(q, "view"))))];
    var named := if PickParam(q) > 0 then viewed["pick" := Itoa(PickParam(q))] else viewed;
    if AllRounds(q) then named["rounds" := "all"] else named
  }

  // ---------------------------------------------------------------- the since filter

  function Above(picks: seq<Pick>, since: int): seq<Pick>
  {
    if picks == [] then []
    else if picks[0].number > since then [picks[0]] + Above(picks[1..], since)
    else Above(picks[1..], since)
  }

  function Filtered(rounds: seq<Round>, since: int): seq<Round>
  {
    if rounds == [] then []
    else
      var picks, rest := Above(rounds[0].picks, since), Filtered(rounds[1..], since);
      if picks == [] then rest
      else [rounds[0].(picks := picks, showHeader := since < rounds[0].first)] + rest
  }

  lemma {:induction false} AboveAppend(a: seq<Pick>, b: seq<Pick>, since: int)
    ensures Above(a + b, since) == Above(a, since) + Above(b, since)
  {
    if a == [] {
      assert a + b == b;
    } else {
      assert (a + b)[1..] == a[1..] + b;
      AboveAppend(a[1..], b, since);
    }
  }

  lemma {:induction false} FilteredAppend(a: seq<Round>, b: seq<Round>, since: int)
    ensures Filtered(a + b, since) == Filtered(a, since) + Filtered(b, since)
  {
    if a == [] {
      assert a + b == b;
    } else {
      assert (a + b)[1..] == a[1..] + b;
      FilteredAppend(a[1..], b, since);
    }
  }

  method PicksAbove(picks: seq<Pick>, since: int) returns (kept: seq<Pick>)
    ensures kept == Above(picks, since)
  {
    kept := [];
    for i := 0 to |picks|
      invariant kept == Above(picks[..i], since)
    {
      assert picks[..i + 1] == picks[..i] + [picks[i]];
      AboveAppend(picks[..i], [picks[i]], since);
      if picks[i].number > since {
        kept := kept + [picks[i]];
      }
    }
    assert picks[..|picks|] == picks;
  }

  /** filterTapeRoundsSince. */
  method FilterTapeRoundsSince(rounds: seq<Round>, since: int) returns (out: seq<Round>)
    ensures out == Filtered(rounds, since)
  {
    out := [];
    for i := 0 to |rounds|
      invariant out == Filtered(rounds[..i], since)
    {
      var round := rounds[i];
      assert rounds[..i + 1] == rounds[..i] + [round];
      FilteredAppend(rounds[..i], [round], since);
      var picks := PicksAbove(round.picks, since);
      if |picks| == 0 {
        continue;
      }
      round := round.(picks := picks, showHeader := since < round.first);
      out := out + [round];
    }
    assert rounds[..|rounds|] == rounds;
  }

  /** Every pick of the rounds, in order. */
  function Picks(rounds: seq<Round>): seq<Pick>
  {
    if rounds == [] then [] else rounds[0].picks + Picks(rounds[1..])
  }

  lemma {:induction false} PicksAppend(a: seq<Round>, b: seq<Round>)
    ensures Picks(a + b) == Picks(a) + Picks(b)
  {
    if a == [] {
      assert a + b == b;
    } else {
      assert (a + b)[1..] == a[1..] + b;
      PicksAppend(a[1..], b);
    }
  }

  lemma {:induction false} FilterKeepsPicksAbove(rounds: seq<Round>, since: int)
    ensures Picks(Filtered(rounds, since)) == Above(Picks(rounds), since)
  {
    if rounds != [] {
      FilterKeepsPicksAbove(rounds[1..], since);
      AboveAppend(rounds[0].picks, Picks(rounds[1..]), since);
      var picks, rest := Above(rounds[0].picks, since), Filtered(rounds[1..], since);
      if picks != [] {
        var round := rounds[0].(picks := picks, showHeader := since < rounds[0].first);
        assert ([round] + rest)[1..] == rest;
      }
    }
  }

  // ---------------------------------------------------------------- the three steps

  function Capped(rounds: seq<Round>): seq<Round>
  {
    if |rounds| <= MAX_RENDERED_ROUNDS then rounds else rounds[..MAX_RENDERED_ROUNDS]
  }

  predicate HasPick(rounds: seq<Round>, number: nat)
  {
    exists p :: p in Picks(rounds) && p.number == number
  }

  /** tapeRoundsHavePick. */
  method TapeRoundsHavePick(rounds: seq<Round>, number: nat) returns (found: bool)
    ensures found == HasPick(rounds, number)
  {
    for i := 0 to |rounds|
      invariant !HasPick(rounds[..i], number)
    {
      var picks := rounds[i].picks;
      assert rounds[..i + 1] == rounds[..i] + [rounds[i]];
      PicksAppend(rounds[..i], [rounds[i]]);
      assert Picks([rounds[i]]) == picks;
      for j := 0 to |picks|
        invariant forall k :: 0 <= k < j ==> picks[k].number != number
      {
        if picks[j].number == number {
          assert rounds == rounds[..i] + rounds[i..];
          PicksAppend(rounds[..i], rounds[i..]);
          assert picks[j] in Picks(rounds);
          return true;
        }
      }
    }
    assert rounds[..|rounds|] == rounds;
    return false;
  }

  function AfterSince(h: History, q: Query): History
  {
    match Since(q)
    case None => h
    case Some(since) =>
      h.(since := since, rounds := Filtered(h.rounds, since), hasOnClock := false, roundsEmpty := false)
  }

  /** Whether a full render shows every round: asked for, or needed to show the pick named. */
  predicate ShowsAll(h: History, q: Query)
  {
    AllRounds(q) ||
    (PickParam(q) > 0 && !HasPick(Capped(h.rounds), PickParam(q)) && HasPick(h.rounds, PickParam(q)))
  }

  function AfterView(h: History, q: Query): History
  {
    var viewed := h.(view := NormalizedView(Lower(Param(q, "view"))));
    if h.since >= 0 then viewed
    else
      viewed.(hasOlderRounds := !ShowsAll(h, q) && |h.rounds| > MAX_RENDERED_ROUNDS,
              rounds := if ShowsAll(h, q) then h.rounds else Capped(h.rounds))
  }

  function OpenedPick(p: Pick, detail: nat -> string): Pick
  {
    p.(open := true, closeLink := true, detail := Detail(detail(p.number)))
  }

  /** The first pick numbered `number`, opened. */
  function OpenIn(picks: seq<Pick>, number: nat, detail: nat -> string): seq<Pick>
  {
    if picks == [] then []
    else if picks[0].number == number then [OpenedPick(picks[0], detail)] + picks[1..]
    else [picks[0]] + OpenIn(picks[1..], number, detail)
  }

  /** What the since filter and the view leave to show. */
  function Shown(h: History, q: Query): History
  {
    AfterView(AfterSince(h, q), q)
  }

  /** The rows of a whole request. */
  function Rows(h: History, q: Query, detail: Option<nat -> string>): seq<Pick>
  {
    var picks := Picks(Shown(h, q).rounds);
    if PickParam(q) == 0 || detail == None then picks else OpenIn(picks, PickParam(q), detail.value)
  }

  class Fragment {
    var history: History
    var tapeQuery: Query
    const detail: Option<nat -> string>   // absent when the caller has no detail source

    constructor (rounds: seq<Round>, onClock: bool, detail: Option<nat -> string>)
      ensures history == History(rounds, -1, Tape, onClock, rounds == [], false) && this.detail == detail
    {
      this.detail := detail;
      history := History(rounds, -1, Tape, onClock, rounds == [], false);
      tapeQuery := map[];
    }

    /** attachDraftFragmentSince. */
    method AttachSince(q: Query)
      modifies this`history
      ensures history == AfterSince(old(history), q)
    {
      if "since" !in q {
        return;
      }
      var raw := Param(q, "since");
      var since := 0;
      if raw != "" {
        var parsed := Atoi(raw);
        if parsed == None || parsed.value < 0 {
          return;
        }
        since := parsed.value;
      }
      var rounds := FilterTapeRoundsSince(history.rounds, since);
      history := history.(since := since, rounds := rounds, hasOnClock := false, roundsEmpty := false);
    }

    /** attachDraftFragmentView. */
    method AttachView(q: Query)
      modifies this
      ensures history == AfterView(old(history), q) && tapeQuery == TapeQuery(q)
    {
      history := history.(view := NormalizedView(Lower(Param(q, "view"))));
      if history.since < 0 {
        var allRounds := AllRounds(q);
        var capped := Capped(history.rounds);
        if !allRounds {
          var pick := PickParam(q);
          if pick > 0 {
            var shown := TapeRoundsHavePick(capped, pick);
            var exists_ := TapeRoundsHavePick(history.rounds, pick);
            if !shown && exists_ {
              allRounds := true;
            }
          }
        }
        history := history.(hasOlderRounds := !allRounds && |history.rounds| > MAX_RENDERED_ROUNDS);
        if !allRounds {
          history := history.(rounds := capped);
        }
      }
      LinkTape(q);
    }

    method LinkTape(q: Query)
      requires history.view == NormalizedView(Lower(Param(q, "view")))
      modifies this`tapeQuery
      ensures tapeQuery == TapeQuery(q)
    {
      tapeQuery := map["view" := ViewText(history.view)];
      var pick := PickParam(q);
      if pick > 0 {
        tapeQuery := tapeQuery["pick" := Itoa(pick)];
      }
      if AllRounds(q) {
        tapeQuery := tapeQuery["rounds" := "all"];
      }
    }

    /** attachDraftFragmentPick: at most the one row named is opened and hydrated. */
    method AttachPick(q: Query)
      modifies this`history
      ensures history == old(history).(rounds := history.rounds)
      ensures Picks(history.rounds) == if PickParam(q) == 0 || detail == None then Picks(old(history).rounds)
                                       else OpenIn(Picks(old(history).rounds), PickParam(q), detail.value)
      ensures |history.rounds| == |old(history).rounds|
      ensures forall i :: 0 <= i < |history.rounds| ==>
                history.rounds[i] == old(history).rounds[i].(picks := history.rounds[i].picks)
    {
      var number := PickParam(q);
      if number == 0 || detail == None {
        return;
      }
      var rounds := history.rounds;
      for i := 0 to |rounds|
        invariant !HasPick(rounds[..i], number) && history == old(history)
      {
        var picks := rounds[i].picks;
        assert rounds[..i + 1] == rounds[..i] + [rounds[i]];
        PicksAppend(rounds[..i], [rounds[i]]);
        assert Picks([rounds[i]]) == picks;
        for j := 0 to |picks|
          invariant forall k :: 0 <= k < j ==> picks[k].number != number
          invariant history == old(history)
        {
          if picks[j].number != number {
            continue;
          }
          var shownRound := rounds[i].(picks := picks[j := OpenedPick(picks[j], detail.value)]);
          OpenInRound(rounds, i, j, number, detail.value);
          history := history.(rounds := rounds[i := shownRound]);
          return;
        }
      }
      assert rounds[..|rounds|] == rounds;
      OpenNothing(Picks(rounds), number, detail.value);
    }

    /** The whole request. */
    method Render(q: Query)
      modifies this
      ensures history == Shown(old(history), q).(rounds := history.rounds) && tapeQuery == TapeQuery(q)
      ensures Picks(history.rounds) == Rows(old(history), q, detail)
    {
      AttachSince(q);
      AttachView(q);
      AttachPick(q);
    }
  }

  lemma {:induction false} OpenNothing(picks: seq<Pick>, number: nat, detail: nat -> string)
    requires forall p :: p in picks ==> p.number != number
    ensures OpenIn(picks, number, detail) == picks
  {
    if picks != [] {
      OpenNothing(picks[1..], number, detail);
      assert picks == [picks[0]] + picks[1..];
    }
  }

  lemma OpenLater(q: Pick, rest: seq<Pick>, number: nat, detail: nat -> string)
    requires q.number != number
    ensures OpenIn([q] + rest, number, detail) == [q] + OpenIn(rest, number, detail)
  {
    assert ([q] + rest)[1..] == rest;
  }

  lemma OpenFirst(p: Pick, rest: seq<Pick>, number: nat, detail: nat -> string)
    requires p.number == number
    ensures OpenIn([p] + rest, number, detail) == [OpenedPick(p, detail)] + rest
  {
    assert ([p] + rest)[1..] == rest;
  }

  lemma Split<T>(s: seq<T>, p: T, after: seq<T>)
    requires s != []
    ensures s + [p] + after == [s[0]] + (s[1..] + [p] + after)
  {
  }

  lemma {:induction false} OpenAt(before: seq<Pick>, p: Pick, after: seq<Pick>, number: nat, detail: nat -> string)
    requires p.number == number && forall o :: o in before ==> o.number != number
    ensures OpenIn(before + [p] + after, number, detail) == before + [OpenedPick(p, detail)] + after
  {
    if before == [] {
      OpenFirst(p, after, number, detail);
      assert before + [p] + after == [p] + after;
    } else {
      OpenAt(before[1..], p, after, number, detail);
      OpenLater(before[0], before[1..] + [p] + after, number, detail);
      Split(before, p, after);
      Split(before, OpenedPick(p, detail), after);
    }
  }

  lemma Regrouped(a: seq<Pick>, x: seq<Pick>, p: Pick, y: seq<Pick>, c: seq<Pick>)
    ensures a + ((x + [p] + y) + c) == (a + x) + [p] + (y + c)
  {
  }

  lemma PicksAt(a: seq<Round>, round: Round, c: seq<Round>)
    ensures Picks(a + ([round] + c)) == Picks(a) + (round.picks + Picks(c))
  {
    PicksAppend(a, [round] + c);
    assert ([round] + c)[1..] == c;
  }

  lemma CutOut<T>(s: seq<T>, i: nat)
    requires i < |s|
    ensures s == s[..i] + ([s[i]] + s[i + 1..])
  {
  }

  lemma PicksAround(rounds: seq<Round>, i: nat)
    requires i < |rounds|
    ensures Picks(rounds) == Picks(rounds[..i]) + (rounds[i].picks + Picks(rounds[i + 1..]))
  {
    CutOut(rounds, i);
    PicksAt(rounds[..i], rounds[i], rounds[i + 1..]);
  }

  lemma PicksWith(rounds: seq<Round>, i: nat, j: nat, p: Pick)
    requires i < |rounds| && j < |rounds[i].picks|
    ensures Picks(rounds[i := rounds[i].(picks := rounds[i].picks[j := p])]) ==
            (Picks(rounds[..i]) + rounds[i].picks[..j]) + [p] + (rounds[i].picks[j + 1..] + Picks(rounds[i + 1..]))
  {
    var picks := rounds[i].picks;
    var changed := rounds[i := rounds[i].(picks := picks[j := p])];
    PicksAround(changed, i);
    assert changed[..i] == rounds[..i] && changed[i + 1..] == rounds[i + 1..];
    assert picks[j := p] == picks[..j] + [p] + picks[j + 1..];
    Regrouped(Picks(rounds[..i]), picks[..j], p, picks[j + 1..], Picks(rounds[i + 1..]));
  }

  lemma OpenInRound(rounds: seq<Round>, i: nat, j: nat, number: nat, detail: nat -> string)
    requires i < |rounds| && j < |rounds[i].picks| && rounds[i].picks[j].number == number
    requires !HasPick(rounds[..i], number) && forall k :: 0 <= k < j ==> rounds[i].picks[k].number != number
    ensures var shownRound := rounds[i].(picks := rounds[i].picks[j := OpenedPick(rounds[i].picks[j], detail)]);
            Picks(rounds[i := shownRound]) == OpenIn(Picks(rounds), number, detail)
  {
    var picks, p := rounds[i].picks, rounds[i].picks[j];
    PicksWith(rounds, i, j, p);
    PicksWith(rounds, i, j, OpenedPick(p, detail));
    assert picks[j := p] == picks && rounds[i := rounds[i].(picks := picks)] == rounds;
    OpenAt(Picks(rounds[..i]) + picks[..j], p, picks[j + 1..] + Picks(rounds[i + 1..]), number, detail);
  }

  // ---------------------------------------------------------------- what a query says

  /** The value of `key`, white space around it aside, is `value`. */
  predicate Says(q: Query, key: string, value: string)
  {
    key in q && TrimSpace(q[key]) == value
  }

  /** The pick a request names, 0 for none. */
  predicate Names(q: Query, n: nat)
  {
    (n <= MAX_INT && Says(q, "pick", Itoa(n))) ||
    (n == 0 && ("pick" in q ==> Atoi(TrimSpace(q["pick"])) == None))
  }

  lemma NamesPick(q: Query, n: nat)
    requires Names(q, n)
    ensures PickParam(q) == n
  {
    if n <= MAX_INT && Says(q, "pick", Itoa(n)) {
      SaysNumber(q, "pick", n);
    }
  }

  lemma SaysNumber(q: Query, key: string, n: int)
    requires MIN_INT <= n <= MAX_INT && Says(q, key, Itoa(n))
    ensures Param(q, key) != "" && Atoi(Param(q, key)) == Some(n)
  {
    AtoiOfItoa(n);
    ItoaTrimmed(n);
  }

  /** The same letters, in either case. */
  predicate SameLetters(raw: string, word: string)
  {
    |raw| == |word| &&
    forall i :: 0 <= i < |word| ==> 'a' <= word[i] <= 'z' && (raw[i] == word[i] || raw[i] as int == word[i] as int - 32)
  }

  lemma LowerIs(raw: string, word: string)
    requires SameLetters(raw, word)
    ensures Lower(raw) == word
  {
    forall i | 0 <= i < |word|
      ensures LowerChar(raw[i]) == word[i]
    {
      if raw[i] != word[i] {
        assert raw[i] as int + 32 == (raw[i] + ' ') as int;
      }
    }
  }

  /** A link to a view shows that view, in whatever case it is spelled. */
  lemma ViewLinkShowsView(h: History, q: Query, v: ViewName)
    requires "view" in q && SameLetters(TrimSpace(q["view"]), ViewText(v))
    ensures Shown(h, q).view == v
  {
    LowerIs(Param(q, "view"), ViewText(v));
  }

  // ---------------------------------------------------------------- what a request shows

  /** A since poll keeps every pick above its cursor, in order: the cap never touches it.  An empty
      cursor is 0.  The row on the clock and the empty-tape message belong to full renders. */
  lemma SincePollLosesNothing(h: History, q: Query, n: nat)
    requires n <= MAX_INT && (Says(q, "since", Itoa(n)) || (Says(q, "since", "") && n == 0))
    ensures Picks(Shown(h, q).rounds) == Above(Picks(h.rounds), n) && Shown(h, q).since == n
    ensures !Shown(h, q).hasOnClock && !Shown(h, q).roundsEmpty
  {
    if Param(q, "since") != "" {
      SaysNumber(q, "since", n);
    }
    FilterKeepsPicksAbove(h.rounds, n);
  }

  /** A missing, negative or malformed cursor renders the full pane. */
  lemma BadSinceIsFullRender(h: History, q: Query)
    requires "since" in q ==> (exists n: int :: MIN_INT <= n < 0 && Says(q, "since", Itoa(n))) ||
                              exists c :: c in TrimSpace(q["since"]) && !IsDigit(c) && c !in {'+', '-'}
    ensures Since(q) == None && Shown(h, q).hasOnClock == h.hasOnClock && Shown(h, q).roundsEmpty == h.roundsEmpty
    ensures h.since < 0 ==> Shown(h, q).since < 0 && Shown(h, q).rounds <= h.rounds
  {
    if "since" in q {
      if n: int :| MIN_INT <= n < 0 && Says(q, "since", Itoa(n)) {
        SaysNumber(q, "since", n);
      } else {
        var raw := TrimSpace(q["since"]);
        var c :| c in raw && !IsDigit(c) && c !in {'+', '-'};
        assert raw[0] in {'+', '-'} ==> c in raw[1..];
      }
    }
  }

  /** On a full render the older-rounds flag is set exactly when a round was left out; what is
      shown are the newest three rounds, or all of them. */
  lemma OlderRoundsIff(h: History, q: Query)
    requires h.since < 0 && Since(q) == None
    ensures var shown := Shown(h, q);
            shown.rounds <= h.rounds && (shown.hasOlderRounds <==> |shown.rounds| < |h.rounds|) &&
            (|shown.rounds| == |h.rounds| || |shown.rounds| == 3)
  {
  }

  predicate NumbersDiffer(picks: seq<Pick>)
  {
    forall i, j :: 0 <= i < j < |picks| ==> picks[i].number != picks[j].number
  }

  lemma {:induction false} OpensExactlyOne(picks: seq<Pick>, k: nat, detail: nat -> string)
    requires k < |picks| && NumbersDiffer(picks)
    ensures OpenIn(picks, picks[k].number, detail) == picks[k := OpenedPick(picks[k], detail)]
  {
    if k > 0 {
      OpensExactlyOne(picks[1..], k - 1, detail);
      assert picks[0].number != picks[k].number;
      assert picks[k := OpenedPick(picks[k], detail)] ==
             [picks[0]] + picks[1..][k - 1 := OpenedPick(picks[k], detail)];
    }
  }

  /** What a full render shows are the newest rounds, down to a pick it names; all of them when the
      older-rounds link was followed, and never more than three for any other reason. */
  lemma ShownRounds(h: History, q: Query, n: nat)
    requires h.since < 0 && Since(q) == None
    requires Names(q, n)
    ensures var shown := Shown(h, q).rounds;
            && Picks(shown) <= Picks(h.rounds)
            && ("rounds" in q && SameLetters(TrimSpace(q["rounds"]), "all") ==> shown == h.rounds)
            && (n > 0 && HasPick(h.rounds, n) ==> HasPick(shown, n))
            && (|shown| > 3 && "rounds" !in q ==>
                  n > 0 && !HasPick(h.rounds[..3], n) && HasPick(h.rounds, n))
  {
    var shown := Shown(h, q).rounds;
    if "rounds" in q && SameLetters(TrimSpace(q["rounds"]), "all") {
      LowerIs(Param(q, "rounds"), "all");
    }
    NamesPick(q, n);
    assert h.rounds == shown + h.rounds[|shown|..];
    PicksAppend(shown, h.rounds[|shown|..]);
  }

  /** A refresh of the tape region shows what the request showed: the same view, the same rounds,
      and the same row open. */
  lemma RefreshShowsTheSame(h: History, q: Query, detail: Option<nat -> string>)
    requires h.since < 0 && Since(q) == None
    ensures Shown(h, TapeQuery(q)) == Shown(h, q) && Rows(h, TapeQuery(q), detail) == Rows(h, q, detail)
    ensures TapeQuery(TapeQuery(q)) == TapeQuery(q)
  {
    ViewAgain(q);
    PickAgain(q);
    RoundsAgain(q);
    assert "since" !in TapeQuery(q);
    SameView(h, q, TapeQuery(q));
  }

  lemma SameView(h: History, q: Query, r: Query)
    requires NormalizedView(Lower(Param(r, "view"))) == NormalizedView(Lower(Param(q, "view")))
    requires PickParam(r) == PickParam(q) && AllRounds(r) == AllRounds(q)
    ensures AfterView(h, r) == AfterView(h, q) && TapeQuery(r) == TapeQuery(q)
  {
  }

  lemma TextOfView(v: ViewName)
    ensures TrimSpace(ViewText(v)) == ViewText(v) && Lower(ViewText(v)) == ViewText(v)
  {
    LowerIs(ViewText(v), ViewText(v));
    TrimOfTrimmed(ViewText(v));
  }

  lemma ViewAgain(q: Query)
    ensures NormalizedView(Lower(Param(TapeQuery(q), "view"))) == NormalizedView(Lower(Param(q, "view")))
  {
    TextOfView(NormalizedView(Lower(Param(q, "view"))));
  }

  lemma RoundsAgain(q: Query)
    ensures AllRounds(TapeQuery(q)) == AllRounds(q)
  {
    LowerIs("all", "all");
    TrimOfTrimmed("all");
  }

  lemma PickAgain(q: Query)
    ensures PickParam(TapeQuery(q)) == PickParam(q)
  {
    var n := PickParam(q);
    if n > 0 {
      ItoaTrimmed(n);
      TrimOfTrimmed(Itoa(n));
      SaysNumber(TapeQuery(q), "pick", n);
    }
  }

  // ---------------------------------------------------------------- the open row

  lemma {:induction false} AboveDiffers(picks: seq<Pick>, since: int)
    requires NumbersDiffer(picks)
    ensures NumbersDiffer(Above(picks, since))
    ensures forall p :: p in Above(picks, since) ==> p in picks
  {
    if picks != [] {
      AboveDiffers(picks[1..], since);
      assert forall p :: p in picks[1..] ==> p.number != picks[0].number;
    }
  }

  lemma ShownRowsDiffer(h: History, q: Query)
    requires h.since < 0 && NumbersDiffer(Picks(h.rounds))
    ensures NumbersDiffer(Picks(Shown(h, q).rounds))
    ensures forall p :: p in Picks(Shown(h, q).rounds) ==> p in Picks(h.rounds)
  {
    match Since(q)
    case Some(since) =>
      FilterKeepsPicksAbove(h.rounds, since);
      AboveDiffers(Picks(h.rounds), since);
    case None =>
      var shown := Shown(h, q).rounds;
      assert h.rounds == shown + h.rounds[|shown|..];
      PicksAppend(shown, h.rounds[|shown|..]);
      assert Picks(shown) == Picks(h.rounds)[..|Picks(shown)|];
  }

  /** Every request, full render or since poll: a row comes out open exactly when the request names
      its number and details can be had; apart from that the rows are those shown. */
  lemma OpenRowIff(h: History, q: Query, detail: Option<nat -> string>, n: nat)
    requires h.since < 0 && NumbersDiffer(Picks(h.rounds)) && forall p :: p in Picks(h.rounds) ==> !p.open
    requires Names(q, n)
    ensures var before, after := Picks(Shown(h, q).rounds), Rows(h, q, detail);
            |after| == |before| &&
            forall i :: 0 <= i < |after| ==>
              && after[i].number == before[i].number && after[i].card == before[i].card
              && (after[i].open <==> detail.Some? && n > 0 && after[i].number == n)
              && (if after[i].open then after[i].closeLink && after[i].detail == Detail(detail.value(n))
                  else after[i] == before[i])
  {
    var picks := Picks(Shown(h, q).rounds);
    ShownRowsDiffer(h, q);
    NamesPick(q, n);
    if detail.Some? && n > 0 {
      if k :| 0 <= k < |picks| && picks[k].number == n {
        OpensExactlyOne(picks, k, detail.value);
      } else {
        OpenNothing(picks, n, detail.value);
      }
    }
  }

  /** A full render that names an existing pick shows it, open and with its details, and shows no
      other row open. */
  lemma NamedPickOpensAlone(h: History, q: Query, detail: nat -> string, n: nat) returns (k: nat)
    requires h.since < 0 && Since(q) == None && n > 0 && Names(q, n) && HasPick(h.rounds, n)
    requires NumbersDiffer(Picks(h.rounds)) && forall p :: p in Picks(h.rounds) ==> !p.open
    ensures var all, after := Picks(h.rounds), Rows(h, q, Some(detail));
            && k < |after| <= |all| && after[k].number == all[k].number == n && after[k].card == all[k].card
            && after[k].open && after[k].closeLink && after[k].detail == Detail(detail(n))
            && forall i :: 0 <= i < |after| && i != k ==> after[i] == all[i] && !after[i].open
  {
    ShownRounds(h, q, n);
    ShownRowsDiffer(h, q);
    OpenRowIff(h, q, Some(detail), n);
    var picks := Picks(Shown(h, q).rounds);
    assert forall i :: 0 <= i < |picks| ==> picks[i] == Picks(h.rounds)[i];
    k :| 0 <= k < |picks| && picks[k].number == n;
  }
}
