/** Which box score the preseason poller fetches, and how often (blitz_source.go, selectFetchTarget
    and chargeBudget). A run is a sequence of ticks; the games, the entered teams and the answers
    may be anything at every one of them. */
module BlitzFetch {
  import opened Text
  import opened BlitzHealth

  const LIVE_WINDOW := 5 * HOUR
  const DAY := 24 * HOUR

  datatype Pick = Pick(game: Game, catchUp: bool)

  /** The poller's memory of what it fetched. Days count UTC midnights; -1 is no day yet. */
  datatype Ledger = Ledger(
    lastFetch: map<string, int>, finalCached: set<string>, catchUpDone: map<string, int>, budgetDay: int,
    budgetUsed: int)

  function Day(now: int): int
  {
    now / DAY
  }

  function LastFetch(l: Ledger, id: string): int
  {
    if id in l.lastFetch then l.lastFetch[id] else 0
  }

  predicate Relevant(g: Game, teams: set<string>)
  {
    g.away in teams || g.home in teams
  }

  predicate Live(g: Game, teams: set<string>, now: int)
  {
    !g.final && Relevant(g, teams) && g.kickoff <= now <= g.kickoff + LIVE_WINDOW
  }

  predicate LiveDue(g: Game, teams: set<string>, l: Ledger, pollInterval: int, now: int)
  {
    Live(g, teams, now) && (LastFetch(l, g.id) == 0 || now - LastFetch(l, g.id) >= pollInterval)
  }

  predicate CatchUpDue(g: Game, teams: set<string>, l: Ledger, now: int)
  {
    Relevant(g, teams) && (g.final || now >= g.kickoff + LIVE_WINDOW) &&
    g.id !in l.finalCached && !(g.id in l.catchUpDone && l.catchUpDone[g.id] == Day(now))
  }

  /** The pick at index `k`: the first of the stalest live games that are due. */
  predicate Stalest(games: seq<Game>, k: nat, teams: set<string>, l: Ledger, pollInterval: int, now: int)
    requires k < |games|
  {
    && LiveDue(games[k], teams, l, pollInterval, now)
    && (forall j :: 0 <= j < |games| && LiveDue(games[j], teams, l, pollInterval, now) ==>
          LastFetch(l, games[k].id) <= LastFetch(l, games[j].id) &&
          (j < k ==> LastFetch(l, games[k].id) < LastFetch(l, games[j].id)))
  }

  predicate FirstCatchUp(games: seq<Game>, k: nat, teams: set<string>, l: Ledger, now: int)
    requires k < |games|
  {
    CatchUpDue(games[k], teams, l, now) && forall j :: 0 <= j < k ==> !CatchUpDue(games[j], teams, l, now)
  }

  /** What a tick may pick: a live game first, a catch-up only when no live game is due, and
      nothing only when neither is. */
  ghost predicate Chosen(games: seq<Game>, teams: set<string>, l: Ledger, pollInterval: int, now: int,
                         pick: Option<Pick>)
  {
    match pick
    case Some(Pick(g, false)) =>
      exists k :: 0 <= k < |games| && games[k] == g && Stalest(games, k, teams, l, pollInterval, now)
    case Some(Pick(g, true)) =>
      (forall h :: h in games ==> !LiveDue(h, teams, l, pollInterval, now)) &&
      exists k :: 0 <= k < |games| && games[k] == g && FirstCatchUp(games, k, teams, l, now)
    case None =>
      forall h :: h in games ==> !LiveDue(h, teams, l, pollInterval, now) && !CatchUpDue(h, teams, l, now)
  }

  /** selectFetchTarget. */
  method SelectFetchTarget(games: seq<Game>, teams: set<string>, l: Ledger, pollInterval: int, now: int)
    returns (pick: Option<Pick>)
    ensures Chosen(games, teams, l, pollInterval, now, pick)
  {
    var best, staleAt, haveLive := 0, 0, false;
    for i := 0 to |games|
      invariant !haveLive ==> forall j :: 0 <= j < i ==> !LiveDue(games[j], teams, l, pollInterval, now)
      invariant haveLive ==> best < i && Stalest(games[..i], best, teams, l, pollInterval, now) &&
                             staleAt == LastFetch(l, games[best].id)
    {
      var game := games[i];
      assert forall j :: 0 <= j < i ==> games[..i + 1][j] == games[..i][j];
      if game.final || !Relevant(game, teams) {
        continue;
      }
      if now < game.kickoff || now > game.kickoff + LIVE_WINDOW {
        continue;
      }
      var last := LastFetch(l, game.id);
      if last != 0 && now - last < pollInterval {
        continue;
      }
      if !haveLive || last < staleAt {
        best, staleAt, haveLive := i, last, true;
      }
    }
    if haveLive {
      assert games[..|games|] == games;
      return Some(Pick(games[best], false));
    }
    var today := Day(now);
    for i := 0 to |games|
      invariant forall j :: 0 <= j < i ==> !CatchUpDue(games[j], teams, l, now)
    {
      var game := games[i];
      if !Relevant(game, teams) {
        continue;
      }
      if !game.final && now < game.kickoff + LIVE_WINDOW {
        continue;
      }
      if game.id in l.finalCached || (game.id in l.catchUpDone && l.catchUpDone[game.id] == today) {
        continue;
      }
      assert FirstCatchUp(games, i, teams, l, now);
      return Some(Pick(game, true));
    }
    return None;
  }

  /** chargeBudget. */
  method ChargeBudget(l: Ledger, dailyBudget: int, now: int) returns (ok: bool, after: Ledger)
    ensures (ok, after) == Charged(l, dailyBudget, now)
  {
    var today := Day(now);
    after := l;
    if after.budgetDay != today {
      after := after.(budgetDay := today, budgetUsed := 0);
    }
    if after.budgetUsed >= dailyBudget {
      return false, after;
    }
    after := after.(budgetUsed := after.budgetUsed + 1);
    return true, after;
  }

  function SpentToday(l: Ledger, now: int): int
  {
    if l.budgetDay == Day(now) then l.budgetUsed else 0
  }

  function Charged(l: Ledger, dailyBudget: int, now: int): (bool, Ledger)
  {
    var used := SpentToday(l, now);
    var ok := used < dailyBudget;
    (ok, l.(budgetDay := Day(now), budgetUsed := if ok then used + 1 else used))
  }

  // ---------------------------------------------------------------- runs

  /** The fetch a tick made, and whether its answer was a final box score. */
  datatype Fetch = Fetch(pick: Pick, final: bool)

  datatype Tick = Tick(now: int, games: seq<Game>, teams: set<string>, fetch: Option<Fetch>)

  function Fetched(l: Ledger, f: Fetch, now: int): Ledger
  {
    var id := f.pick.game.id;
    l.(lastFetch := l.lastFetch[id := now],
       finalCached := if f.final then l.finalCached + {id} else l.finalCached,
       catchUpDone := if f.final && f.pick.catchUp then l.catchUpDone[id := Day(now)] else l.catchUpDone)
  }

  ghost predicate TickStep(l: Ledger, t: Tick, after: Ledger, pollInterval: int, dailyBudget: int)
  {
    exists pick ::
      && Chosen(t.games, t.teams, l, pollInterval, t.now, pick)
      && match pick
         case None => t.fetch == None && after == l
         case Some(p) =>
           var (ok, charged) := Charged(l, dailyBudget, t.now);
           if ok then t.fetch.Some? && t.fetch.value.pick == p && after == Fetched(charged, t.fetch.value, t.now)
           else t.fetch == None && after == charged
  }

  const NEW_LEDGER := Ledger(map[], {}, map[], -1, 0)

  /** A run from boot: `ledgers[i]` is the memory before tick `i`. Cached finals may be loaded first. */
  ghost predicate Run(ticks: seq<Tick>, ledgers: seq<Ledger>, pollInterval: int, dailyBudget: int)
  {
    && |ledgers| == |ticks| + 1
    && ledgers[0] == NEW_LEDGER.(finalCached := ledgers[0].finalCached)
    && (forall i :: 0 <= i < |ticks| ==> TickStep(ledgers[i], ticks[i], ledgers[i + 1], pollInterval, dailyBudget))
  }

  predicate ClockAdvances(ticks: seq<Tick>)
  {
    (forall i :: 0 <= i < |ticks| ==> ticks[i].now > 0) &&
    (forall i, j :: 0 <= i < j < |ticks| ==> ticks[i].now < ticks[j].now)
  }

  predicate FetchesAt(ticks: seq<Tick>, i: nat, id: string)
    requires i < |ticks|
  {
    ticks[i].fetch.Some? && ticks[i].fetch.value.pick.game.id == id
  }

  predicate LiveFetchAt(ticks: seq<Tick>, i: nat, id: string)
    requires i < |ticks|
  {
    FetchesAt(ticks, i, id) && !ticks[i].fetch.value.pick.catchUp
  }

  /** The recorded instant is that of the latest fetch, whether or not it succeeded. */
  lemma {:induction false} LastFetchIsLatest(ticks: seq<Tick>, ledgers: seq<Ledger>, pollInterval: int,
                                             dailyBudget: int, n: nat, id: string)
    requires Run(ticks, ledgers, pollInterval, dailyBudget) && ClockAdvances(ticks) && n <= |ticks|
    ensures forall i :: 0 <= i < n && FetchesAt(ticks, i, id) ==> ticks[i].now <= LastFetch(ledgers[n], id)
    ensures LastFetch(ledgers[n], id) == 0 ||
            exists i :: 0 <= i < n && FetchesAt(ticks, i, id) && ticks[i].now == LastFetch(ledgers[n], id)
  {
    if n > 0 {
      LastFetchIsLatest(ticks, ledgers, pollInterval, dailyBudget, n - 1, id);
      if !FetchesAt(ticks, n - 1, id) && LastFetch(ledgers[n], id) != 0 {
        var i :| 0 <= i < n - 1 && FetchesAt(ticks, i, id) && ticks[i].now == LastFetch(ledgers[n - 1], id);
        assert FetchesAt(ticks, i, id) && ticks[i].now == LastFetch(ledgers[n], id);
      }
    }
  }

  /** Stalest first is fair: between two fetches of one game, the second of them live, every other
      game that is live at the second was fetched. */
  lemma StalestFirstIsFair(ticks: seq<Tick>, ledgers: seq<Ledger>, pollInterval: int, dailyBudget: int, i: nat, j: nat,
                           id: string, other: Game)
    requires Run(ticks, ledgers, pollInterval, dailyBudget) && ClockAdvances(ticks)
    requires i < j < |ticks| && FetchesAt(ticks, i, id) && LiveFetchAt(ticks, j, id)
    requires other in ticks[j].games && other.id != id && Live(other, ticks[j].teams, ticks[j].now)
    ensures exists k :: i < k < j && FetchesAt(ticks, k, other.id)
  {
    var l, t := ledgers[j], ticks[j];
    assert TickStep(l, t, ledgers[j + 1], pollInterval, dailyBudget);
    LastFetchIsLatest(ticks, ledgers, pollInterval, dailyBudget, j, id);
    LastFetchIsLatest(ticks, ledgers, pollInterval, dailyBudget, j, other.id);
    var own, theirs := LastFetch(l, id), LastFetch(l, other.id);
    assert ticks[i].now <= own;
    PickedIsStalest(l, t, ledgers[j + 1], pollInterval, dailyBudget, other);
    assert own <= theirs;
    var k :| 0 <= k < j && FetchesAt(ticks, k, other.id) && ticks[k].now == theirs;
    assert ticks[i].now <= ticks[k].now;
    assert k != i;
  }

  lemma PickedIsStalest(l: Ledger, t: Tick, after: Ledger, pollInterval: int, dailyBudget: int, other: Game)
    requires TickStep(l, t, after, pollInterval, dailyBudget) && t.fetch.Some? && !t.fetch.value.pick.catchUp
    requires other in t.games && Live(other, t.teams, t.now)
    requires LastFetch(l, t.fetch.value.pick.game.id) != 0
    ensures LastFetch(l, t.fetch.value.pick.game.id) <= LastFetch(l, other.id)
  {
    var g := t.fetch.value.pick.game;
    assert Chosen(t.games, t.teams, l, pollInterval, t.now, Some(Pick(g, false)));
    var k :| 0 <= k < |t.games| && t.games[k] == g && Stalest(t.games, k, t.teams, l, pollInterval, t.now);
    var m :| 0 <= m < |t.games| && t.games[m] == other;
    assert LiveDue(g, t.teams, l, pollInterval, t.now);
    if LiveDue(t.games[m], t.teams, l, pollInterval, t.now) {
    } else {
      assert t.now - LastFetch(l, other.id) < pollInterval <= t.now - LastFetch(l, g.id);
    }
  }

  /** Every fetch is for a game of an entered team: one in the five hours from its kickoff that is
      not known to be final, or else one that must be over and whose final score is not cached. */
  lemma FetchIsWanted(ticks: seq<Tick>, ledgers: seq<Ledger>, pollInterval: int, dailyBudget: int, i: nat)
    requires Run(ticks, ledgers, pollInterval, dailyBudget) && i < |ticks| && ticks[i].fetch.Some?
    ensures var t, g := ticks[i], ticks[i].fetch.value.pick.game;
            && g in t.games && (g.away in t.teams || g.home in t.teams)
            && if t.fetch.value.pick.catchUp then
                 (g.final || t.now >= g.kickoff + 5 * HOUR) && g.id !in ledgers[i].finalCached
               else !g.final && g.kickoff <= t.now <= g.kickoff + 5 * HOUR
  {
    assert TickStep(ledgers[i], ticks[i], ledgers[i + 1], pollInterval, dailyBudget);
  }

  /** A game is never fetched live within the poll interval after a fetch of it. */
  lemma PollIntervalKept(ticks: seq<Tick>, ledgers: seq<Ledger>, pollInterval: int, dailyBudget: int, i: nat, j: nat,
                         id: string)
    requires Run(ticks, ledgers, pollInterval, dailyBudget) && ClockAdvances(ticks)
    requires i < j < |ticks| && FetchesAt(ticks, i, id) && LiveFetchAt(ticks, j, id)
    ensures ticks[j].now - ticks[i].now >= pollInterval
  {
    LastFetchIsLatest(ticks, ledgers, pollInterval, dailyBudget, j, id);
    assert TickStep(ledgers[j], ticks[j], ledgers[j + 1], pollInterval, dailyBudget);
  }

  // ---------------------------------------------------------------- the daily budget

  function FetchesOn(ticks: seq<Tick>, day: int): (n: nat)
  {
    if ticks == [] then 0
    else
      var t := ticks[|ticks| - 1];
      FetchesOn(ticks[..|ticks| - 1], day) + if t.fetch.Some? && Day(t.now) == day then 1 else 0
  }

  predicate ClockNeverGoesBack(ticks: seq<Tick>)
  {
    forall i, j :: 0 <= i < j < |ticks| ==> ticks[i].now <= ticks[j].now
  }

  lemma {:induction false} NoFetchesOn(ticks: seq<Tick>, day: int)
    requires forall i :: 0 <= i < |ticks| ==> Day(ticks[i].now) != day
    ensures FetchesOn(ticks, day) == 0
  {
    if ticks != [] {
      NoFetchesOn(ticks[..|ticks| - 1], day);
    }
  }

  function Cap(dailyBudget: int): nat
  {
    if dailyBudget < 0 then 0 else dailyBudget
  }

  ghost predicate Spent(ticks: seq<Tick>, l: Ledger, n: nat, dailyBudget: int)
    requires n <= |ticks|
  {
    && (forall day :: FetchesOn(ticks[..n], day) <= Cap(dailyBudget))
    && (forall i :: n <= i < |ticks| ==> SpentToday(l, ticks[i].now) == FetchesOn(ticks[..n], Day(ticks[i].now)))
  }

  lemma SpentStep(ticks: seq<Tick>, l: Ledger, n: nat, after: Ledger, pollInterval: int, dailyBudget: int)
    requires n < |ticks| && ClockNeverGoesBack(ticks) && Spent(ticks, l, n, dailyBudget)
    requires TickStep(l, ticks[n], after, pollInterval, dailyBudget)
    ensures Spent(ticks, after, n + 1, dailyBudget)
  {
    var t := ticks[n];
    assert ticks[..n + 1][..n] == ticks[..n];
    assert SpentToday(l, t.now) == FetchesOn(ticks[..n], Day(t.now));
    var soFar := ticks[..n + 1];
    forall day
      ensures FetchesOn(soFar, day) <= Cap(dailyBudget)
    {
      assert FetchesOn(ticks[..n], day) <= Cap(dailyBudget);
    }
    forall i | n + 1 <= i < |ticks|
      ensures SpentToday(after, ticks[i].now) == FetchesOn(ticks[..n + 1], Day(ticks[i].now))
    {
      assert SpentToday(l, ticks[i].now) == FetchesOn(ticks[..n], Day(ticks[i].now));
      if Day(t.now) < Day(ticks[i].now) {
        forall k | 0 <= k < n
          ensures Day(ticks[..n][k].now) != Day(ticks[i].now)
        {
        }
        NoFetchesOn(ticks[..n], Day(ticks[i].now));
      }
    }
  }

  lemma {:induction false} SpentAlongRun(ticks: seq<Tick>, ledgers: seq<Ledger>, pollInterval: int, dailyBudget: int,
                                         n: nat)
    requires Run(ticks, ledgers, pollInterval, dailyBudget) && ClockNeverGoesBack(ticks) && n <= |ticks|
    ensures Spent(ticks, ledgers[n], n, dailyBudget)
  {
    if n > 0 {
      SpentAlongRun(ticks, ledgers, pollInterval, dailyBudget, n - 1);
      SpentStep(ticks, ledgers[n - 1], n - 1, ledgers[n], pollInterval, dailyBudget);
    }
  }

  /** No UTC day has more fetches than the budget, and a tick that has something to fetch is
      refused only when its day has spent the whole budget. */
  lemma BudgetPerDay(ticks: seq<Tick>, ledgers: seq<Ledger>, pollInterval: int, dailyBudget: int, day: int)
    requires Run(ticks, ledgers, pollInterval, dailyBudget) && ClockNeverGoesBack(ticks)
    ensures FetchesOn(ticks, day) <= Cap(dailyBudget)
    ensures forall n :: 0 <= n < |ticks| && !Chosen(ticks[n].games, ticks[n].teams, ledgers[n], pollInterval,
                                                    ticks[n].now, None) ==>
              (ticks[n].fetch.Some? <==> FetchesOn(ticks[..n], Day(ticks[n].now)) < dailyBudget)
  {
    SpentAlongRun(ticks, ledgers, pollInterval, dailyBudget, |ticks|);
    assert ticks[..|ticks|] == ticks;
    forall n | 0 <= n < |ticks| && !Chosen(ticks[n].games, ticks[n].teams, ledgers[n], pollInterval, ticks[n].now, None)
      ensures ticks[n].fetch.Some? <==> FetchesOn(ticks[..n], Day(ticks[n].now)) < dailyBudget
    {
      SpentAlongRun(ticks, ledgers, pollInterval, dailyBudget, n);
      assert TickStep(ledgers[n], ticks[n], ledgers[n + 1], pollInterval, dailyBudget);
    }
  }

  /** And a tick with budget left makes a live fetch as soon as some live game has gone without
      one for the poll interval. */
  lemma DueLiveIsFetched(ticks: seq<Tick>, ledgers: seq<Ledger>, pollInterval: int, dailyBudget: int, j: nat, g: Game)
    requires Run(ticks, ledgers, pollInterval, dailyBudget) && ClockAdvances(ticks) && j < |ticks|
    requires FetchesOn(ticks[..j], Day(ticks[j].now)) < dailyBudget
    requires g in ticks[j].games && !g.final && (g.away in ticks[j].teams || g.home in ticks[j].teams)
    requires g.kickoff <= ticks[j].now <= g.kickoff + 5 * HOUR
    requires forall i :: 0 <= i < j && FetchesAt(ticks, i, g.id) ==> ticks[j].now - ticks[i].now >= pollInterval
    ensures ticks[j].fetch.Some? && !ticks[j].fetch.value.pick.catchUp
  {
    var t, l := ticks[j], ledgers[j];
    LastFetchIsLatest(ticks, ledgers, pollInterval, dailyBudget, j, g.id);
    assert LiveDue(g, t.teams, l, pollInterval, t.now);
    BudgetPerDay(ticks, ledgers, pollInterval, dailyBudget, Day(t.now));
    assert TickStep(l, t, ledgers[j + 1], pollInterval, dailyBudget);
  }

  /** A live game that was never fetched comes before every one that was, and before such games
      listed after it. */
  lemma NeverFetchedFirst(ticks: seq<Tick>, ledgers: seq<Ledger>, pollInterval: int, dailyBudget: int, j: nat, k: nat)
    requires Run(ticks, ledgers, pollInterval, dailyBudget) && ClockAdvances(ticks) && j < |ticks|
    requires FetchesOn(ticks[..j], Day(ticks[j].now)) < dailyBudget && k < |ticks[j].games|
    requires var t, g := ticks[j], ticks[j].games[k];
             !g.final && (g.away in t.teams || g.home in t.teams) && g.kickoff <= t.now <= g.kickoff + 5 * HOUR
    requires forall i :: 0 <= i < j ==> !FetchesAt(ticks, i, ticks[j].games[k].id)
    ensures ticks[j].fetch.Some? && !ticks[j].fetch.value.pick.catchUp
    ensures var pick := ticks[j].fetch.value.pick.game;
            (exists m :: 0 <= m <= k && ticks[j].games[m] == pick) &&
            forall i :: 0 <= i < j ==> !FetchesAt(ticks, i, pick.id)
  {
    var t, l := ticks[j], ledgers[j];
    DueLiveIsFetched(ticks, ledgers, pollInterval, dailyBudget, j, t.games[k]);
    var pick := t.fetch.value.pick.game;
    LastFetchIsLatest(ticks, ledgers, pollInterval, dailyBudget, j, t.games[k].id);
    LastFetchIsLatest(ticks, ledgers, pollInterval, dailyBudget, j, pick.id);
    assert TickStep(l, t, ledgers[j + 1], pollInterval, dailyBudget);
    assert Chosen(t.games, t.teams, l, pollInterval, t.now, Some(Pick(pick, false)));
    var m :| 0 <= m < |t.games| && t.games[m] == pick && Stalest(t.games, m, t.teams, l, pollInterval, t.now);
    assert LiveDue(t.games[k], t.teams, l, pollInterval, t.now);
  }

  // ---------------------------------------------------------------- missing finals

  lemma {:induction false} CatchUpsAreCached(ticks: seq<Tick>, ledgers: seq<Ledger>, pollInterval: int,
                                             dailyBudget: int, n: nat)
    requires Run(ticks, ledgers, pollInterval, dailyBudget) && n <= |ticks|
    ensures ledgers[n].catchUpDone.Keys <= ledgers[n].finalCached
  {
    if n > 0 {
      CatchUpsAreCached(ticks, ledgers, pollInterval, dailyBudget, n - 1);
      assert TickStep(ledgers[n - 1], ticks[n - 1], ledgers[n], pollInterval, dailyBudget);
    }
  }

  /** The feed parser trims and upper-cases team names, as the health report does again. */
  predicate Parsed(g: Game, norm: string -> string)
  {
    norm(g.away) == g.away && norm(g.home) == g.home
  }

  /** The catch-up search and the health report agree: a final game is due exactly when the report
      counts its score as needed and missing. */
  lemma MissingFinalIsDueIff(ticks: seq<Tick>, ledgers: seq<Ledger>, pollInterval: int, dailyBudget: int, n: nat,
                             g: Game, teams: set<string>, norm: string -> string, now: int)
    requires Run(ticks, ledgers, pollInterval, dailyBudget) && n <= |ticks|
    requires g.final && Parsed(g, norm)
    ensures CatchUpDue(g, teams, ledgers[n], now) <==>
            NeedsFinal(g, g.slate, teams, norm) && g.id !in ledgers[n].finalCached
  {
    CatchUpsAreCached(ticks, ledgers, pollInterval, dailyBudget, n);
  }

  /** No tick with budget left is idle while the final score of some entered team's game that must
      be over is not cached. */
  lemma NeverIdleWhileOwed(ticks: seq<Tick>, ledgers: seq<Ledger>, pollInterval: int, dailyBudget: int, n: nat, g: Game)
    requires Run(ticks, ledgers, pollInterval, dailyBudget) && ClockNeverGoesBack(ticks) && n < |ticks|
    requires g in ticks[n].games && (g.away in ticks[n].teams || g.home in ticks[n].teams)
    requires (g.final || ticks[n].now >= g.kickoff + 5 * HOUR) && g.id !in ledgers[n].finalCached
    requires FetchesOn(ticks[..n], Day(ticks[n].now)) < dailyBudget
    ensures ticks[n].fetch.Some?
  {
    CatchUpsAreCached(ticks, ledgers, pollInterval, dailyBudget, n);
    assert CatchUpDue(g, ticks[n].teams, ledgers[n], ticks[n].now);
    BudgetPerDay(ticks, ledgers, pollInterval, dailyBudget, Day(ticks[n].now));
  }

  /** Among several such games a catch-up is made for the first one listed. */
  lemma CatchUpIsFirst(ticks: seq<Tick>, ledgers: seq<Ledger>, pollInterval: int, dailyBudget: int, n: nat)
    requires Run(ticks, ledgers, pollInterval, dailyBudget) && n < |ticks|
    requires ticks[n].fetch.Some? && ticks[n].fetch.value.pick.catchUp
    ensures var t := ticks[n];
            exists k :: 0 <= k < |t.games| && t.games[k] == t.fetch.value.pick.game &&
                        forall j :: 0 <= j < k && (t.games[j].away in t.teams || t.games[j].home in t.teams) &&
                                    (t.games[j].final || t.now >= t.games[j].kickoff + 5 * HOUR) ==>
                          t.games[j].id in ledgers[n].finalCached
  {
    var t, l := ticks[n], ledgers[n];
    CatchUpsAreCached(ticks, ledgers, pollInterval, dailyBudget, n);
    assert TickStep(l, t, ledgers[n + 1], pollInterval, dailyBudget);
    assert Chosen(t.games, t.teams, l, pollInterval, t.now, Some(t.fetch.value.pick));
    var k :| 0 <= k < |t.games| && t.games[k] == t.fetch.value.pick.game && FirstCatchUp(t.games, k, t.teams, l, t.now);
    assert forall j :: 0 <= j < k ==> !CatchUpDue(t.games[j], t.teams, l, t.now);
  }

  /** So while the report says that a slate's scores are incomplete, no tick with budget left is
      idle. */
  lemma NeverIdleWhileMissing(ticks: seq<Tick>, ledgers: seq<Ledger>, pollInterval: int, dailyBudget: int, n: nat,
                              slate: SlateId, norm: string -> string)
    requires Run(ticks, ledgers, pollInterval, dailyBudget) && ClockNeverGoesBack(ticks) && n < |ticks|
    requires forall g :: g in ticks[n].games ==> Parsed(g, norm)
    requires var needed := Needed(ticks[n].games, slate, ticks[n].teams, norm);
             CachedOf(needed, ledgers[n].finalCached) != |needed|
    requires FetchesOn(ticks[..n], Day(ticks[n].now)) < dailyBudget
    ensures ticks[n].fetch.Some?
  {
    var t, l := ticks[n], ledgers[n];
    NothingMissing(t.games, slate, t.teams, norm, l.finalCached);
    var g :| g in t.games && g.final && (norm(g.away) in t.teams || norm(g.home) in t.teams) && g.id !in l.finalCached;
    assert Parsed(g, norm);
    NeverIdleWhileOwed(ticks, ledgers, pollInterval, dailyBudget, n, g);
  }

  /** A catch-up is due again, that day and later, exactly when its box score was not final: the
      code records the day only with a final one, which needs no catch-up any more. */
  lemma CatchUpRepeatsIff(l: Ledger, g: Game, teams: set<string>, now: int, final: bool, later: int)
    requires CatchUpDue(g, teams, l, now) && now <= later && l.catchUpDone.Keys <= l.finalCached
    ensures CatchUpDue(g, teams, Fetched(l, Fetch(Pick(g, true), final), now), later) <==> !final
  {
  }

  lemma {:induction false} CachedStays(ticks: seq<Tick>, ledgers: seq<Ledger>, pollInterval: int, dailyBudget: int,
                                       i: nat, j: nat)
    requires Run(ticks, ledgers, pollInterval, dailyBudget) && i <= j <= |ticks|
    ensures ledgers[i].finalCached <= ledgers[j].finalCached
    decreases j - i
  {
    if i < j {
      CachedStays(ticks, ledgers, pollInterval, dailyBudget, i, j - 1);
      assert TickStep(ledgers[j - 1], ticks[j - 1], ledgers[j], pollInterval, dailyBudget);
    }
  }

  /** Along every run no game is caught up on again once a box score of it was final. */
  lemma NoCatchUpAfterFinal(ticks: seq<Tick>, ledgers: seq<Ledger>, pollInterval: int, dailyBudget: int, i: nat, j: nat,
                            id: string)
    requires Run(ticks, ledgers, pollInterval, dailyBudget) && i < j < |ticks|
    requires FetchesAt(ticks, i, id) && ticks[i].fetch.value.final && FetchesAt(ticks, j, id)
    ensures LiveFetchAt(ticks, j, id)
  {
    assert TickStep(ledgers[i], ticks[i], ledgers[i + 1], pollInterval, dailyBudget);
    CachedStays(ticks, ledgers, pollInterval, dailyBudget, i + 1, j);
    assert TickStep(ledgers[j], ticks[j], ledgers[j + 1], pollInterval, dailyBudget);
  }
}
