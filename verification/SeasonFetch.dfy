/** A season's player rows, fetched week by week and team by team under a per-query cap
    (matchup_cache.go), against the filter each query applies (internal/openstats/service.go). */
module SeasonFetch {
  import opened Text

  const MAX_WEEK := 18
  const ROW_CAP := 1000
  const REG := "REG"

  datatype Row = Row(playerId: string, team: string, week: int, seasonType: string, line: string)

  datatype Query = Query(playerId: string, week: int, seasonType: string, team: string, limit: int)

  datatype ScheduleGame = ScheduleGame(home: string, away: string)

  // ---------------------------------------------------------------- one query

  /** `norm` stands for trimming and upper-casing. */
  predicate Matches(row: Row, q: Query, norm: string -> string)
  {
    && (q.week > 0 ==> row.week == q.week)
    && (TrimSpace(q.playerId) != "" ==> row.playerId == TrimSpace(q.playerId))
    && (norm(q.team) != "" ==> row.team == norm(q.team))
    && (norm(q.seasonType) != "" ==> row.seasonType == norm(q.seasonType))
  }

  function Matching(rows: seq<Row>, q: Query, norm: string -> string): (m: seq<Row>)
    ensures |m| <= |rows|
  {
    if rows == [] then []
    else
      var row, rest := rows[|rows| - 1], Matching(rows[..|rows| - 1], q, norm);
      if Matches(row, q, norm) then rest + [row] else rest
  }

  function Limit(q: Query): nat
  {
    if q.limit <= 0 then 100 else if q.limit > 1000 then 1000 else q.limit
  }

  function Answer(rows: seq<Row>, q: Query, norm: string -> string): seq<Row>
  {
    var m := Matching(rows, q, norm);
    if |m| <= Limit(q) then m else m[..Limit(q)]
  }

  lemma {:induction false} MatchingPrefix(rows: seq<Row>, n: nat, q: Query, norm: string -> string)
    requires n <= |rows|
    ensures Matching(rows[..n], q, norm) <= Matching(rows, q, norm)
    decreases |rows| - n
  {
    if n < |rows| {
      MatchingPrefix(rows, n + 1, q, norm);
      assert rows[..n + 1][..n] == rows[..n];
    } else {
      assert rows[..n] == rows;
    }
  }

  /** filterPlayerStats: the loop stops as soon as the limit is reached. */
  method FilterPlayerStats(rows: seq<Row>, q: Query, norm: string -> string) returns (out: seq<Row>)
    ensures out == Answer(rows, q, norm)
  {
    var limit := Limit(q);
    var playerId, team, seasonType := TrimSpace(q.playerId), norm(q.team), norm(q.seasonType);
    out := [];
    for i := 0 to |rows|
      invariant out == Matching(rows[..i], q, norm) && |out| < limit
    {
      var stat := rows[i];
      assert rows[..i + 1][..i] == rows[..i];
      if q.week > 0 && stat.week != q.week {
        continue;
      }
      if playerId != "" && stat.playerId != playerId {
        continue;
      }
      if team != "" && stat.team != team {
        continue;
      }
      if seasonType != "" && stat.seasonType != seasonType {
        continue;
      }
      out := out + [stat];
      if |out| >= limit {
        MatchingPrefix(rows, i + 1, q, norm);
        return;
      }
    }
    assert rows[..|rows|] == rows;
  }

  lemma {:induction false} MatchingCounts(rows: seq<Row>, q: Query, norm: string -> string, row: Row)
    ensures multiset(Matching(rows, q, norm))[row] == if Matches(row, q, norm) then multiset(rows)[row] else 0
  {
    if rows != [] {
      var n := |rows| - 1;
      assert rows == rows[..n] + [rows[n]];
      MatchingCounts(rows[..n], q, norm, row);
    }
  }

  /** What a query's answer holds: only rows that meet each filter it sets, no more than asked for,
      100 unless asked and never over 1000, and all such rows when they are fewer. */
  lemma FilterAnswers(rows: seq<Row>, q: Query, norm: string -> string, row: Row)
    ensures var answer := Answer(rows, q, norm);
            var meets := && (q.week <= 0 || row.week == q.week)
                         && (TrimSpace(q.playerId) == "" || row.playerId == TrimSpace(q.playerId))
                         && (norm(q.team) == "" || row.team == norm(q.team))
                         && (norm(q.seasonType) == "" || row.seasonType == norm(q.seasonType));
            var most := if 1 <= q.limit <= 1000 then q.limit else if q.limit < 1 then 100 else 1000;
            && |answer| <= most && (!meets ==> row !in answer)
            && (|answer| < most ==> multiset(answer)[row] == if meets then multiset(rows)[row] else 0)
  {
    var m := Matching(rows, q, norm);
    MatchingCounts(rows, q, norm, row);
    assert !Matches(row, q, norm) ==> row !in multiset(m);
    assert forall r :: r in Answer(rows, q, norm) ==> r in m;
  }

  function WeekQuery(week: int, team: string): Query
  {
    Query("", week, REG, team, ROW_CAP)
  }

  /** fetchWeekRowsCapped: the warning is raised when the answer fills the cap. */
  method FetchWeekRowsCapped(rows: seq<Row>, week: int, team: string, norm: string -> string)
    returns (out: seq<Row>, warned: bool)
    ensures out == Answer(rows, WeekQuery(week, team), norm) && (warned <==> |out| == ROW_CAP)
  {
    out := FilterPlayerStats(rows, WeekQuery(week, team), norm);
    warned := |out| == ROW_CAP;
  }

  /** The warning means 1000 or more rows matched; rows are lost only beyond that, so an answer of
      exactly 1000 matching rows warns although nothing was dropped. */
  lemma WarnedAndDropped(rows: seq<Row>, week: int, team: string, norm: string -> string)
    ensures var m, a := Matching(rows, WeekQuery(week, team), norm), Answer(rows, WeekQuery(week, team), norm);
            (|a| == ROW_CAP <==> |m| >= ROW_CAP) && (a != m <==> |m| > ROW_CAP) &&
            (|a| == ROW_CAP && a == m <==> |m| == ROW_CAP)
  {
  }

  lemma {:induction false} AllMatching(rows: seq<Row>, q: Query, norm: string -> string)
    requires forall row :: row in rows ==> Matches(row, q, norm)
    ensures Matching(rows, q, norm) == rows
  {
    if rows != [] {
      var n := |rows| - 1;
      AllMatching(rows[..n], q, norm);
      assert rows == rows[..n] + [rows[n]];
    }
  }

  /** A team's week of exactly 1000 rows: the warning is raised, and no row is missing. */
  lemma FullAnswerWarns(row: Row, week: int, team: string, norm: string -> string)
    requires Matches(row, WeekQuery(week, team), norm)
    ensures var rows := seq(ROW_CAP, i => row);
            Answer(rows, WeekQuery(week, team), norm) == rows && |rows| == ROW_CAP
  {
    AllMatching(seq(ROW_CAP, i => row), WeekQuery(week, team), norm);
  }

  // ---------------------------------------------------------------- the schedule's teams

  function WithName(names: seq<string>, name: string): seq<string>
  {
    if name == "" || name in names then names else names + [name]
  }

  /** The named sides in order of appearance, each once. */
  function Named(games: seq<ScheduleGame>): seq<string>
  {
    if games == [] then []
    else
      var g := games[|games| - 1];
      WithName(WithName(Named(games[..|games| - 1]), g.home), g.away)
  }

  /** The distinct named sides, sorted. */
  function ScheduledTeams(games: seq<ScheduleGame>): seq<string>
  {
    SortStrings(Named(games))
  }

  predicate Plays(games: seq<ScheduleGame>, team: string)
  {
    team != "" && exists i :: 0 <= i < |games| && (games[i].home == team || games[i].away == team)
  }

  lemma PlaysOneMore(games: seq<ScheduleGame>, team: string)
    requires games != []
    ensures var n := |games| - 1;
            Plays(games, team) <==>
            Plays(games[..n], team) || (team != "" && (games[n].home == team || games[n].away == team))
  {
    var n := |games| - 1;
    if Plays(games, team) && !(games[n].home == team || games[n].away == team) {
      var i :| 0 <= i < |games| && (games[i].home == team || games[i].away == team);
      assert games[..n][i] == games[i];
    }
    if Plays(games[..n], team) {
      var i :| 0 <= i < n && (games[..n][i].home == team || games[..n][i].away == team);
      assert games[i] == games[..n][i];
    }
  }

  lemma {:induction false} NamedOnce(games: seq<ScheduleGame>)
    ensures Distinct(Named(games))
    ensures forall t :: t in Named(games) <==> Plays(games, t)
  {
    if games != [] {
      var n := |games| - 1;
      NamedOnce(games[..n]);
      forall t
        ensures t in Named(games) <==> Plays(games, t)
      {
        PlaysOneMore(games, t);
      }
    }
  }

  lemma NamedGrows(games: seq<ScheduleGame>, i: nat)
    requires i < |games|
    ensures forall t :: t in Named(games[..i + 1]) <==>
                        t in Named(games[..i]) || (t != "" && (t == games[i].home || t == games[i].away))
  {
    assert games[..i + 1][..i] == games[..i];
    NamedOnce(games[..i]);
  }

  lemma ScheduledOnce(games: seq<ScheduleGame>)
    ensures Sorted(ScheduledTeams(games)) && Distinct(ScheduledTeams(games))
    ensures forall t :: t in ScheduledTeams(games) <==> Plays(games, t)
  {
    NamedOnce(games);
    SortKeepsDistinct(Named(games));
  }

  /** scheduleTeams: the order in which Go walks the set of names does not matter. */
  method ScheduleTeams(games: seq<ScheduleGame>) returns (teams: seq<string>)
    ensures teams == ScheduledTeams(games)
  {
    var seen: map<string, bool> := map[];
    for i := 0 to |games|
      invariant forall t :: t in seen <==> t in Named(games[..i])
    {
      NamedGrows(games, i);
      if games[i].home != "" {
        seen := seen[games[i].home := true];
      }
      if games[i].away != "" {
        seen := seen[games[i].away := true];
      }
    }
    assert games[..|games|] == games;
    teams := KeysOf(seen);
    NamedOnce(games);
    SortIgnoresOrder(teams, Named(games));
    teams := SortStrings(teams);
  }

  // ---------------------------------------------------------------- the season

  /** The team filters asked for each week; without a schedule one unfiltered query. */
  function Asked(teams: seq<string>): (asked: seq<string>)
    ensures asked != []
  {
    if teams == [] then [""] else teams
  }

  function WeekRows(rows: seq<Row>, week: int, asked: seq<string>, norm: string -> string): seq<Row>
  {
    if asked == [] then []
    else
      var n := |asked| - 1;
      WeekRows(rows, week, asked[..n], norm) + Answer(rows, WeekQuery(week, asked[n]), norm)
  }

  function SeasonRows(rows: seq<Row>, weeks: nat, asked: seq<string>, norm: string -> string): seq<Row>
  {
    if weeks == 0 then [] else SeasonRows(rows, weeks - 1, asked, norm) + WeekRows(rows, weeks, asked, norm)
  }

  lemma {:induction false} RowsOfTheWeek(rows: seq<Row>, week: int, asked: seq<string>, norm: string -> string)
    requires week > 0
    ensures forall row :: row in WeekRows(rows, week, asked, norm) ==> row.week == week && row in rows
  {
    if asked != [] {
      var n := |asked| - 1;
      RowsOfTheWeek(rows, week, asked[..n], norm);
      forall row | row in Answer(rows, WeekQuery(week, asked[n]), norm)
        ensures row.week == week && row in rows
      {
        MatchingCounts(rows, WeekQuery(week, asked[n]), norm, row);
        assert row in multiset(Matching(rows, WeekQuery(week, asked[n]), norm));
      }
    }
  }

  /** The fetched rows come week by week. */
  lemma {:induction false} FetchedInWeekOrder(rows: seq<Row>, weeks: nat, asked: seq<string>, norm: string -> string)
    ensures var all := SeasonRows(rows, weeks, asked, norm);
            && (forall row :: row in all ==> 1 <= row.week <= weeks && row in rows)
            && forall i, j :: 0 <= i < j < |all| ==> all[i].week <= all[j].week
  {
    if weeks > 0 {
      FetchedInWeekOrder(rows, weeks - 1, asked, norm);
      RowsOfTheWeek(rows, weeks, asked, norm);
    }
  }

  /** One week of fetchSeasonPlayerStats. */
  method FetchWeek(rows: seq<Row>, week: int, teams: seq<string>, norm: string -> string) returns (all: seq<Row>)
    ensures all == WeekRows(rows, week, Asked(teams), norm)
  {
    var batch, warned;
    all := [];
    if |teams| == 0 {
      batch, warned := FetchWeekRowsCapped(rows, week, "", norm);
      all := all + batch;
      assert [""][..0] == [];
      return;
    }
    for i := 0 to |teams|
      invariant all == WeekRows(rows, week, teams[..i], norm)
    {
      batch, warned := FetchWeekRowsCapped(rows, week, teams[i], norm);
      assert teams[..i + 1][..i] == teams[..i];
      all := all + batch;
    }
    assert teams[..|teams|] == teams;
  }

  /** fetchSeasonPlayerStats. */
  method FetchSeasonPlayerStats(games: seq<ScheduleGame>, rows: seq<Row>, norm: string -> string)
    returns (all: seq<Row>)
    ensures all == SeasonRows(rows, MAX_WEEK, Asked(ScheduledTeams(games)), norm)
  {
    var named := ScheduleTeams(games);
    all := [];
    for week := 1 to MAX_WEEK + 1
      invariant all == SeasonRows(rows, week - 1, Asked(named), norm)
    {
      var batch := FetchWeek(rows, week, named, norm);
      all := all + batch;
    }
  }

  // ---------------------------------------------------------------- what was fetched

  predicate InSeason(row: Row, weeks: nat)
  {
    row.seasonType == REG && 1 <= row.week <= weeks
  }

  /** How many of the team filters let a row of `team` through. */
  function Asks(asked: seq<string>, team: string, norm: string -> string): nat
  {
    if asked == [] then 0
    else
      var n := |asked| - 1;
      Asks(asked[..n], team, norm) + if norm(asked[n]) == "" || norm(asked[n]) == team then 1 else 0
  }

  /** No query of a week reaches past the cap. */
  predicate WeekFits(rows: seq<Row>, week: int, asked: seq<string>, norm: string -> string)
  {
    forall i :: 0 <= i < |asked| ==> |Matching(rows, WeekQuery(week, asked[i]), norm)| <= ROW_CAP
  }

  predicate Fits(rows: seq<Row>, weeks: nat, asked: seq<string>, norm: string -> string)
  {
    forall week :: 1 <= week <= weeks ==> WeekFits(rows, week, asked, norm)
  }

  /** `m` copies of a row for each of `asks` filters: the product, one filter at a time. */
  function Copies(m: nat, asks: nat): nat
  {
    if asks == 0 then 0 else Copies(m, asks - 1) + m
  }

  lemma {:induction false} CopiesMultiply(m: nat, asks: nat)
    ensures Copies(m, asks) == m * asks
  {
    if asks > 0 {
      CopiesMultiply(m, asks - 1);
    }
  }

  lemma WeekMatch(row: Row, week: int, team: string, norm: string -> string)
    requires norm(REG) == REG && week > 0
    ensures Matches(row, WeekQuery(week, team), norm) <==>
            row.seasonType == REG && row.week == week && (norm(team) == "" || norm(team) == row.team)
  {
  }

  lemma WeekStep(rows: seq<Row>, week: int, asked: seq<string>, norm: string -> string, row: Row)
    requires norm(REG) == REG && week > 0 && asked != []
    requires |Matching(rows, WeekQuery(week, asked[|asked| - 1]), norm)| <= ROW_CAP
    ensures var n := |asked| - 1;
            multiset(WeekRows(rows, week, asked, norm))[row] ==
            multiset(WeekRows(rows, week, asked[..n], norm))[row] +
            if Matches(row, WeekQuery(week, asked[n]), norm) then multiset(rows)[row] else 0
  {
    var n := |asked| - 1;
    var before, last := WeekRows(rows, week, asked[..n], norm), Matching(rows, WeekQuery(week, asked[n]), norm);
    assert WeekRows(rows, week, asked, norm) == before + last;
    MatchingCounts(rows, WeekQuery(week, asked[n]), norm, row);
  }

  lemma {:induction false} WeekCounts(rows: seq<Row>, week: int, asked: seq<string>, norm: string -> string, row: Row)
    requires norm(REG) == REG && week > 0 && WeekFits(rows, week, asked, norm)
    ensures multiset(WeekRows(rows, week, asked, norm))[row] ==
            if row.seasonType == REG && row.week == week then Copies(multiset(rows)[row], Asks(asked, row.team, norm))
            else 0
  {
    if asked != [] {
      var n := |asked| - 1;
      WeekCounts(rows, week, asked[..n], norm, row);
      WeekStep(rows, week, asked, norm, row);
      WeekMatch(row, week, asked[n], norm);
    }
  }

  /** How often a row is fetched in one week. */
  function InWeek(rows: seq<Row>, week: int, asked: seq<string>, norm: string -> string, row: Row): nat
  {
    multiset(WeekRows(rows, week, asked, norm))[row]
  }

  lemma SeasonStep(rows: seq<Row>, weeks: nat, asked: seq<string>, norm: string -> string, row: Row)
    requires weeks > 0
    ensures multiset(SeasonRows(rows, weeks, asked, norm))[row] ==
            multiset(SeasonRows(rows, weeks - 1, asked, norm))[row] + InWeek(rows, weeks, asked, norm, row)
  {
  }

  lemma {:induction false} SeasonCopies(rows: seq<Row>, weeks: nat, asked: seq<string>, norm: string -> string,
                                        row: Row, copies: nat)
    requires forall week :: 1 <= week <= weeks ==>
               InWeek(rows, week, asked, norm, row) == if row.seasonType == REG && row.week == week then copies else 0
    ensures multiset(SeasonRows(rows, weeks, asked, norm))[row] == if InSeason(row, weeks) then copies else 0
  {
    if weeks > 0 {
      SeasonCopies(rows, weeks - 1, asked, norm, row, copies);
      SeasonStep(rows, weeks, asked, norm, row);
    }
  }

  lemma SeasonCounts(rows: seq<Row>, weeks: nat, asked: seq<string>, norm: string -> string, row: Row)
    requires norm(REG) == REG && Fits(rows, weeks, asked, norm)
    ensures multiset(SeasonRows(rows, weeks, asked, norm))[row] ==
            if InSeason(row, weeks) then multiset(rows)[row] * Asks(asked, row.team, norm) else 0
  {
    var copies := Copies(multiset(rows)[row], Asks(asked, row.team, norm));
    forall week | 1 <= week <= weeks
      ensures InWeek(rows, week, asked, norm, row) == if row.seasonType == REG && row.week == week then copies else 0
    {
      WeekCounts(rows, week, asked, norm, row);
    }
    SeasonCopies(rows, weeks, asked, norm, row, copies);
    CopiesMultiply(multiset(rows)[row], Asks(asked, row.team, norm));
  }

  /** One pass over the rows: those of the season's weeks whose team is wanted. */
  function Wanted(rows: seq<Row>, wanted: string -> bool): seq<Row>
  {
    if rows == [] then []
    else
      var row, rest := rows[|rows| - 1], Wanted(rows[..|rows| - 1], wanted);
      if InSeason(row, MAX_WEEK) && wanted(row.team) then rest + [row] else rest
  }

  lemma {:induction false} WantedCounts(rows: seq<Row>, wanted: string -> bool, row: Row)
    ensures multiset(Wanted(rows, wanted))[row] ==
            if InSeason(row, MAX_WEEK) && wanted(row.team) then multiset(rows)[row] else 0
  {
    if rows != [] {
      var n := |rows| - 1;
      assert rows == rows[..n] + [rows[n]];
      WantedCounts(rows[..n], wanted, row);
    }
  }

  /** Each row of the season is asked for once if its team is wanted, and never otherwise. */
  predicate AskedRight(rows: seq<Row>, asked: seq<string>, norm: string -> string, wanted: string -> bool)
  {
    forall row :: row in rows && InSeason(row, MAX_WEEK) ==>
      Asks(asked, row.team, norm) == if wanted(row.team) then 1 else 0
  }

  lemma RowCounts(rows: seq<Row>, asked: seq<string>, norm: string -> string, wanted: string -> bool, row: Row)
    requires norm(REG) == REG && Fits(rows, MAX_WEEK, asked, norm)
    ensures var asks := Asks(asked, row.team, norm);
            multiset(SeasonRows(rows, MAX_WEEK, asked, norm))[row] == multiset(Wanted(rows, wanted))[row] <==>
            row !in rows || !InSeason(row, MAX_WEEK) || asks == if wanted(row.team) then 1 else 0
  {
    SeasonCounts(rows, MAX_WEEK, asked, norm, row);
    WantedCounts(rows, wanted, row);
    if row in rows {
      OnlyOnce(multiset(rows)[row], Asks(asked, row.team, norm));
    }
  }

  /** The paged fetch is one pass over the rows, up to order, exactly when every row is asked for
      as often as it is wanted. */
  lemma PagedIsOnePassIff(rows: seq<Row>, asked: seq<string>, norm: string -> string, wanted: string -> bool)
    requires norm(REG) == REG && Fits(rows, MAX_WEEK, asked, norm)
    ensures multiset(SeasonRows(rows, MAX_WEEK, asked, norm)) == multiset(Wanted(rows, wanted)) <==>
            AskedRight(rows, asked, norm, wanted)
  {
    var paged, once := multiset(SeasonRows(rows, MAX_WEEK, asked, norm)), multiset(Wanted(rows, wanted));
    if AskedRight(rows, asked, norm, wanted) {
      forall row
        ensures paged[row] == once[row]
      {
        RowCounts(rows, asked, norm, wanted, row);
      }
    }
    if paged == once {
      forall row | row in rows && InSeason(row, MAX_WEEK)
        ensures Asks(asked, row.team, norm) == if wanted(row.team) then 1 else 0
      {
        RowCounts(rows, asked, norm, wanted, row);
      }
    }
  }

  lemma OnlyOnce(m: nat, asks: nat)
    requires m > 0
    ensures (m * asks == m <==> asks == 1) && (m * asks == 0 <==> asks == 0)
  {
    if asks >= 2 {
      assert m * asks >= m * 2;
    }
  }

  lemma {:induction false} AsksOnce(teams: seq<string>, team: string, norm: string -> string)
    requires Distinct(teams) && forall t :: t in teams ==> norm(t) == t && t != ""
    ensures Asks(teams, team, norm) == if team in teams then 1 else 0
  {
    if teams != [] {
      LastOfDistinct(teams);
      AsksOnce(teams[..|teams| - 1], team, norm);
    }
  }

  /** With a schedule whose team names are already trimmed and upper-case, no row is missing or
      repeated: the fetch is the season's rows of the scheduled teams, in another order. */
  lemma ScheduledFetchIsComplete(rows: seq<Row>, games: seq<ScheduleGame>, norm: string -> string)
    requires var teams := ScheduledTeams(games);
             norm(REG) == REG && teams != [] && (forall t :: t in teams ==> norm(t) == t) &&
             Fits(rows, MAX_WEEK, teams, norm)
    ensures var teams := ScheduledTeams(games);
            multiset(SeasonRows(rows, MAX_WEEK, Asked(teams), norm)) == multiset(Wanted(rows, team => team in teams))
  {
    var teams := ScheduledTeams(games);
    ScheduledOnce(games);
    forall row | row in rows && InSeason(row, MAX_WEEK)
      ensures Asks(teams, row.team, norm) == if row.team in teams then 1 else 0
    {
      AsksOnce(teams, row.team, norm);
    }
    PagedIsOnePassIff(rows, teams, norm, team => team in teams);
  }

  /** Without a schedule every team's rows are fetched, each once. */
  lemma UnscheduledFetchIsComplete(rows: seq<Row>, norm: string -> string)
    requires norm(REG) == REG && norm("") == "" && Fits(rows, MAX_WEEK, [""], norm)
    ensures multiset(SeasonRows(rows, MAX_WEEK, Asked([]), norm)) == multiset(Wanted(rows, team => true))
  {
    assert [""][..0] == [];
    assert forall team :: Asks([""], team, norm) == 1;
    PagedIsOnePassIff(rows, [""], norm, team => true);
  }

  /** How the schedule's parser leaves a name: not blank. Its case is not changed. */
  predicate NoBlank(teams: seq<string>, norm: string -> string)
  {
    forall t :: t in teams ==> norm(t) != ""
  }

  function Spellings(teams: seq<string>, team: string, norm: string -> string): seq<string>
  {
    if teams == [] then []
    else
      var n := |teams| - 1;
      if norm(teams[n]) == team then Spellings(teams[..n], team, norm) + [teams[n]]
      else Spellings(teams[..n], team, norm)
  }

  lemma {:induction false} AsksCountSpellings(teams: seq<string>, team: string, norm: string -> string)
    requires NoBlank(teams, norm)
    ensures Asks(teams, team, norm) == |Spellings(teams, team, norm)|
  {
    if teams != [] {
      var n := |teams| - 1;
      assert forall t :: t in teams[..n] ==> t in teams;
      AsksCountSpellings(teams[..n], team, norm);
    }
  }

  /** For every schedule the parser can yield: the fetch is one pass over the rows of the teams it
      names exactly when no team with rows is spelled there in two ways. */
  lemma ScheduledFetchIff(rows: seq<Row>, games: seq<ScheduleGame>, norm: string -> string)
    requires var teams := ScheduledTeams(games);
             norm(REG) == REG && teams != [] && NoBlank(teams, norm) && Fits(rows, MAX_WEEK, teams, norm)
    ensures var teams := ScheduledTeams(games);
            multiset(SeasonRows(rows, MAX_WEEK, Asked(teams), norm)) ==
            multiset(Wanted(rows, team => Spellings(teams, team, norm) != [])) <==>
            forall row :: row in rows && InSeason(row, MAX_WEEK) ==> |Spellings(teams, row.team, norm)| <= 1
  {
    var teams := ScheduledTeams(games);
    forall row | row in rows
      ensures Asks(teams, row.team, norm) == |Spellings(teams, row.team, norm)|
    {
      AsksCountSpellings(teams, row.team, norm);
    }
    PagedIsOnePassIff(rows, teams, norm, team => Spellings(teams, team, norm) != []);
  }

  /** One game whose sides spell a team in two ways: both are scheduled, and each row of the team
      is fetched twice. */
  lemma TwoSpellingsRepeat(rows: seq<Row>, upper: string, lower: string, norm: string -> string, row: Row)
    requires norm(REG) == REG && norm(upper) == norm(lower) == upper && upper != "" && lower != "" && lower != upper
    requires Fits(rows, MAX_WEEK, ScheduledTeams([ScheduleGame(upper, lower)]), norm)
    requires row.team == upper && InSeason(row, MAX_WEEK)
    ensures var teams := ScheduledTeams([ScheduleGame(upper, lower)]);
            |teams| == 2 && upper in teams && lower in teams &&
            multiset(SeasonRows(rows, MAX_WEEK, Asked(teams), norm))[row] == 2 * multiset(rows)[row]
  {
    BothScheduled(upper, lower);
    AskedTwice(upper, lower, norm, if Leq(upper, lower) then [upper, lower] else [lower, upper]);
    SeasonCounts(rows, MAX_WEEK, ScheduledTeams([ScheduleGame(upper, lower)]), norm, row);
  }

  lemma BothScheduled(upper: string, lower: string)
    requires upper != "" && lower != "" && lower != upper
    ensures ScheduledTeams([ScheduleGame(upper, lower)]) == if Leq(upper, lower) then [upper, lower] else [lower, upper]
  {
    var games := [ScheduleGame(upper, lower)];
    assert games[..0] == [] && Named([]) == [];
    assert Named(games) == [upper, lower];
    assert [upper, lower][1..] == [lower] && [lower][1..] == [];
    assert SortStrings([lower]) == [lower];
    assert Insert(upper, [lower]) == if Leq(upper, lower) then [upper, lower] else [lower, upper];
  }

  lemma AskedTwice(upper: string, lower: string, norm: string -> string, teams: seq<string>)
    requires norm(upper) == norm(lower) == upper && (teams == [upper, lower] || teams == [lower, upper])
    ensures Asks(teams, upper, norm) == 2
  {
    assert teams[..1] == [teams[0]] && [teams[0]][..0] == [];
    assert Asks([teams[0]], upper, norm) == 1;
  }
}
