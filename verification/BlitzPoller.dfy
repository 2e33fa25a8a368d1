/** The preseason poller itself (blitz_source.go). Feed answers, box scores, the entered teams and
    the clock are parameters; each method is one of the source's critical sections or a sequence
    of them. `Valid` is what holds whenever the lock is free. */
module BlitzPoller {
  import opened Text
  import opened BlitzHealth
  import opened BlitzFetch
  import opened BlitzFeed
  import opened BlitzRun

  /** The nested stats maps of a poller or a snapshot, which are changed in place. */
  class StatTable {
    var lines: map<SlateId, map<string, Line>>

    constructor (lines: map<SlateId, map<string, Line>>)
      ensures this.lines == lines
    {
      this.lines := lines;
    }
  }

  class Poller {
    const dailyBudget: int
    const pollInterval: int
    const norm: string -> string   // how the health report spells a team
    const weeks: seq<string>       // the weeks a probe asks for
    var weekParam: map<SlateId, string>
    var games: array<Game>
    const stats: StatTable
    var version: int
    var ledger: Ledger
    var lastSchedule: map<SlateId, int>
    var scheduleError: set<SlateId>
    var boxScoreError: set<SlateId>
    var health: Health
    ghost var judged: set<string>   // the entered teams the last recount was made with

    constructor (dailyBudget: int, pollInterval: int, norm: string -> string)
      ensures Valid() && fresh(games) && fresh(stats)
      ensures this.dailyBudget == dailyBudget && this.pollInterval == pollInterval && this.norm == norm
      ensures weeks == WEEKS && MemoryNow() == NewMemory()
    {
      this.dailyBudget, this.pollInterval, this.norm, this.weeks := dailyBudget, pollInterval, norm, WEEKS;
      weekParam, version, ledger := map[], 0, NEW_LEDGER;
      stats := new StatTable(map[Pre2 := map[], Pre3 := map[]]);
      lastSchedule, scheduleError, boxScoreError, judged := map[], {}, {}, {};
      health := NEW_HEALTH;
      var none: seq<Game> := [];
      games := new Game[0](i requires 0 <= i < |none| => none[i]);
    }

    ghost function Current(): View
      reads this, games, stats
    {
      View(version, games[..], stats.lines)
    }

    ghost function FeedNow(): Feed
      reads this, games, stats
    {
      Feed(weeks, weekParam, scheduleError, health, Current())
    }

    ghost function MemoryNow(): Memory
      reads this, games, stats
    {
      Memory(FeedNow(), ledger, boxScoreError, lastSchedule)
    }

    ghost function Constants(): Settings
    {
      Settings(norm, dailyBudget)
    }

    /** Valid except that the recount is still to come. */
    ghost predicate Pending()
      reads this, games, stats
    {
      PendingFeed(FeedNow())
    }

    ghost predicate Valid()
      reads this, games, stats
    {
      Pending() &&
      ReadyIsSound(health, games[..], judged, norm, ledger.finalCached, scheduleError, boxScoreError)
    }

    /** Snapshot: the games and the stats it returns share nothing with the poller's own. */
    method Snapshot() returns (view: View, copy: array<Game>, table: StatTable, report: Health)
      ensures fresh(copy) && copy[..] == games[..] && fresh(table) && table.lines == stats.lines
      ensures view == Current() && report == health
    {
      var source := games;
      copy := new Game[source.Length](i requires 0 <= i < source.Length reads source => source[i]);
      assert copy[..] == games[..];
      table := new StatTable(stats.lines);
      view, report := View(version, copy[..], table.lines), health;
    }

    // -------------------------------------------------------------- recount

    ghost function JudgedOf(slate: SlateId, teams: set<string>): SlateHealth
      reads this, games, stats
      requires slate in health.slates
    {
      JudgedAs(health.slates[slate], games[..], slate, teams, norm, ledger.finalCached, slate in scheduleError,
               slate in boxScoreError)
    }

    method JudgeSlate(slate: SlateId, teams: set<string>)
      requires slate in health.slates
      modifies `health
      ensures health == old(health).(slates := old(health.slates)[slate := old(JudgedOf(slate, teams))])
    {
      var status := health.slates[slate];
      var expected, fetched := ScoringCompleteness(games[..], slate, teams, norm, ledger.finalCached);
      status := status.(expectedScoring := expected, fetchedScoring := fetched, scoringComplete := expected == fetched);
      if slate in scheduleError && status.state == Ready {
        status := status.(state := Degraded);
      }
      if slate in boxScoreError {
        status := status.(state := Degraded);
      }
      if slate !in scheduleError && slate !in boxScoreError {
        if status.final && !status.scoringComplete {
          status := status.(state := Degraded);
          if status.error == NoNote {
            status := status.(error := MissingFinals);
          }
        } else if status.error == MissingFinals {
          status := status.(error := NoNote);
          if status.complete {
            status := status.(state := Ready);
          }
        } else if status.complete && status.state == Degraded && status.error == NoNote {
          status := status.(state := Ready);
        }
      }
      health := health.(slates := health.slates[slate := status]);
    }

    method JudgeSlates(teams: set<string>) returns (t: Tally)
      requires Pending()
      modifies `health
      ensures t == Tallied(Tallied(NO_TALLY, old(JudgedOf(Pre2, teams))), old(JudgedOf(Pre3, teams)))
      ensures health.slates == map[Pre2 := old(JudgedOf(Pre2, teams)), Pre3 := old(JudgedOf(Pre3, teams))]
    {
      ghost var a, b := JudgedOf(Pre2, teams), JudgedOf(Pre3, teams);
      var order := [Pre2, Pre3];
      t := NO_TALLY;
      for i := 0 to 2
        invariant i == 0 ==> health == old(health) && t == NO_TALLY
        invariant i == 1 ==> health.slates == old(health.slates)[Pre2 := a] && t == Tallied(NO_TALLY, a)
        invariant i == 2 ==> health.slates == old(health.slates)[Pre2 := a][Pre3 := b] &&
                             t == Tallied(Tallied(NO_TALLY, a), b)
      {
        JudgeSlate(order[i], teams);
        t := Tallied(t, health.slates[order[i]]);
      }
    }

    /** recomputeHealthLocked. */
    method RecomputeHealth(now: int, teams: set<string>)
      requires Pending()
      modifies `health, `judged
      ensures Valid() && judged == teams
      ensures FeedNow() == RecountFeed(old(FeedNow()), teams, norm, ledger.finalCached, boxScoreError, now)
    {
      RecountIsSound(health, games[..], teams, norm, ledger.finalCached, scheduleError, boxScoreError, now);
      judged := teams;
      var t := JudgeSlates(teams);
      health := Reported(t, now, health.slates);
    }

    /** The recount that ends a fetch, with the next version. */
    method RecountAndBump(now: int, teams: set<string>)
      requires Pending()
      modifies `health, `judged, `version
      ensures Valid() && judged == teams
      ensures var recounted := RecountFeed(old(FeedNow()), teams, norm, ledger.finalCached, boxScoreError, now);
              FeedNow() == recounted.(view := recounted.view.(version := recounted.view.version + 1))
    {
      RecomputeHealth(now, teams);
      version := version + 1;
    }

    // -------------------------------------------------------------- schedule answers

    /** applyGamesLocked. */
    method ApplyGames(slate: SlateId, placed: seq<FeedGame>)
      requires placed != []
      modifies `games, `version
      ensures fresh(games) && ViewAfterListing(old(Current()), slate, placed, Current())
    {
      var kept := SplicedGames(games[..], slate, placed);
      games := new Game[|kept|](i requires 0 <= i < |kept| => kept[i]);
      version := version + 1;
      assert games[..] == kept;
    }

    method RecordListing(slate: SlateId, week: string, status: SlateHealth, placed: seq<FeedGame>, dropped: bool)
      modifies `health, `games, `version, `scheduleError, `weekParam
      ensures (fresh(games) || games == old(games)) && ViewAfterListing(old(Current()), slate, placed, Current())
      ensures weekParam == old(weekParam)[slate := week] && scheduleError == Flagged(old(scheduleError), slate, dropped)
      ensures health == WithSlate(old(health), slate, status)
    {
      weekParam := weekParam[slate := week];
      scheduleError := Flagged(scheduleError, slate, dropped);
      health := WithSlate(health, slate, status);
      if |placed| > 0 {
        ApplyGames(slate, placed);
      }
    }

    /** The part of resolveSlateLocked for the week that lists the slate. */
    method ResolveListed(slate: SlateId, week: string, candidates: seq<FeedGame>, now: int)
      requires slate in health.slates && candidates != []
      modifies `health, `games, `version, `scheduleError, `weekParam
      ensures fresh(games) || games == old(games)
      ensures ViewAfterListing(old(Current()), slate, Placed(candidates), Current())
      ensures FeedNow() ==
              ListingFeed(old(FeedNow()), slate, week, candidates, now, slate in boxScoreError, Current())
    {
      var status, placed := ListedStatus(health.slates[slate], candidates, now, slate in boxScoreError);
      RecordListing(slate, week, status, placed, |placed| < |candidates|);
    }

    /** resolveSlateLocked: the first week that lists the slate decides; when none does, the
        slate keeps what it had. */
    method ResolveSlate(slate: SlateId, results: map<string, seq<FeedGame>>, now: int, failed: bool)
      requires Pending() && slate in SLATES
      modifies `health, `games, `version, `scheduleError, `weekParam
      ensures Pending() && (fresh(games) || games == old(games))
      ensures Resolved(old(FeedNow()), slate, results, now, failed, slate in boxScoreError, FeedNow())
    {
      for i := 0 to |weeks|
        invariant Pending() && games == old(games) && FeedNow() == old(FeedNow())
        invariant forall k :: 0 <= k < i ==> weeks[k] !in results || results[weeks[k]] == []
      {
        var week := weeks[i];
        if week in results && results[week] != [] {
          FirstListingSkips(results, weeks, i);
          ResolveListed(slate, week, results[week], now);
          ListingKeeps(old(FeedNow()), slate, week, results[week], now, slate in boxScoreError, FeedNow());
          return;
        }
      }
      FirstListingSkips(results, weeks, |weeks|);
      var status := UnlistedStatus(health.slates[slate], now, failed);
      UnlistedKeeps(health, games[..], slate, now, failed);
      scheduleError := Flagged(scheduleError, slate, failed);
      health := WithSlate(health, slate, status);
    }

    // -------------------------------------------------------------- boot and refresh

    /** One slate's share of probeSlates, and probeUnresolvedSlate before its recount. */
    method ProbeSlate(slate: SlateId, answer: string -> Answer, now: int)
      requires Pending() && slate in SLATES
      modifies `health, `games, `version, `scheduleError, `weekParam
      ensures Pending() && (fresh(games) || games == old(games))
      ensures Probed(old(FeedNow()), slate, answer, now, slate in boxScoreError, FeedNow())
    {
      var results, failed := ProbeWeeks(weeks, answer);
      ResolveSlate(slate, results, now, failed);
    }

    method ProbeBoth(first: SlateId, second: SlateId, answers: SlateId -> string -> Answer, now: int)
      returns (ghost mid: Feed)
      requires Pending() && first in SLATES && second in SLATES
      modifies `health, `games, `version, `scheduleError, `weekParam, `lastSchedule
      ensures Pending() && (fresh(games) || games == old(games)) && mid.health.slates.Keys == SLATES
      ensures lastSchedule == old(lastSchedule)[first := now][second := now]
      ensures Probed(old(FeedNow()), first, answers(first), now, first in boxScoreError, mid)
      ensures Probed(mid, second, answers(second), now, second in boxScoreError, FeedNow())
    {
      ProbeSlate(first, answers(first), now);
      mid := FeedNow();
      ProbeSlate(second, answers(second), now);
      lastSchedule := lastSchedule[first := now][second := now];
    }

    method ProbeFeed(first: SlateId, second: SlateId, answers: SlateId -> string -> Answer, now: int,
                     teams: set<string>)
      requires Valid() && {first, second} == SLATES
      modifies `health, `games, `version, `scheduleError, `weekParam, `lastSchedule, `judged
      ensures Valid() && (fresh(games) || games == old(games))
      ensures lastSchedule == old(lastSchedule)[first := now][second := now]
      ensures Booted(old(FeedNow()), first, second, answers, now, teams, norm, ledger.finalCached, boxScoreError,
                     FeedNow())
    {
      assert first in {first, second} && second in {first, second};
      ghost var mid := ProbeBoth(first, second, answers, now);
      RecomputeHealth(now, teams);
    }

    /** probeSlates: both slates are resolved, in either order, before the one recount. */
    method ProbeSlates(first: SlateId, second: SlateId, answers: SlateId -> string -> Answer, now: int,
                       teams: set<string>)
      requires Valid() && {first, second} == SLATES
      modifies `health, `games, `version, `scheduleError, `weekParam, `lastSchedule, `judged
      ensures Valid() && (fresh(games) || games == old(games))
      ensures Passes(old(MemoryNow()), Boot(first, second, answers, now, teams), MemoryNow(), Constants())
    {
      ProbeFeed(first, second, answers, now, teams);
    }

    /** The part of refreshSchedulesIfDue between the date check and the recount. */
    method AnswerSlate(slate: SlateId, answer: string -> Answer, now: int)
      requires Pending() && slate in SLATES
      modifies `health, `games, `version, `scheduleError, `weekParam
      ensures Pending() && (fresh(games) || games == old(games))
      ensures Answered(old(FeedNow()), slate, answer, now, slate in boxScoreError, FeedNow())
    {
      if slate !in weekParam {
        ProbeSlate(slate, answer, now);
        return;
      }
      match answer(weekParam[slate]) {
        case Refused(error) =>
          scheduleError := scheduleError + {slate};
          health := WithSlate(health, slate, AfterFailure(health.slates[slate], now, error));
        case Listing(candidates) =>
          scheduleError := scheduleError - {slate};
          ResolveSlate(slate, map[weekParam[slate] := candidates], now, false);
      }
    }

    method AnswerDue(slate: SlateId, answer: string -> Answer, now: int)
      requires Pending() && slate in SLATES
      modifies `health, `games, `version, `scheduleError, `weekParam, `lastSchedule
      ensures Pending() && (fresh(games) || games == old(games))
      ensures lastSchedule == old(lastSchedule)[slate := now]
      ensures Answered(old(FeedNow()), slate, answer, now, slate in boxScoreError, FeedNow())
    {
      lastSchedule := lastSchedule[slate := now];
      AnswerSlate(slate, answer, now);
    }

    method RefreshFeed(slate: SlateId, answer: string -> Answer, now: int, teams: set<string>)
      requires Valid() && slate in SLATES
      modifies `health, `games, `version, `scheduleError, `weekParam, `lastSchedule, `judged
      ensures Valid() && (fresh(games) || games == old(games)) && lastSchedule == old(lastSchedule)[slate := now]
      ensures Refreshed(old(FeedNow()), slate, answer, now, teams, norm, ledger.finalCached, boxScoreError, FeedNow())
    {
      AnswerDue(slate, answer, now);
      RecomputeHealth(now, teams);
    }

    method RefreshNow(slate: SlateId, answer: string -> Answer, now: int, teams: set<string>)
      requires Valid() && slate in SLATES && RefreshDue(lastSchedule, slate, now)
      modifies `health, `games, `version, `scheduleError, `weekParam, `lastSchedule, `judged
      ensures Valid() && (fresh(games) || games == old(games))
      ensures lastSchedule == old(lastSchedule)[slate := now]
      ensures Passes(old(MemoryNow()), Refresh(slate, answer, now, teams), MemoryNow(), Constants())
    {
      RefreshFeed(slate, answer, now, teams);
    }

    /** refreshSchedulesIfDue for one slate: once a day, through the week the slate was found
        under or, when it never was, through all of them. */
    method RefreshSlate(slate: SlateId, answer: string -> Answer, now: int, teams: set<string>)
      returns (ghost memories: seq<Memory>)
      requires Valid() && slate in SLATES
      modifies `health, `games, `version, `scheduleError, `weekParam, `lastSchedule, `judged
      ensures Valid() && (fresh(games) || games == old(games))
      ensures lastSchedule == if RefreshDue(old(lastSchedule), slate, now) then old(lastSchedule)[slate := now]
                              else old(lastSchedule)
      ensures Ran(memories, Refreshing(old(lastSchedule), slate, answer, now, teams), Constants(), old(MemoryNow()),
                  MemoryNow())
    {
      memories := [MemoryNow()];
      if !RefreshDue(lastSchedule, slate, now) {
        return;
      }
      RefreshNow(slate, answer, now, teams);
      RanOne(old(MemoryNow()), Refresh(slate, answer, now, teams), MemoryNow(), Constants());
      memories := [old(MemoryNow()), MemoryNow()];
    }

    // -------------------------------------------------------------- box scores

    /** loadCachedFinals, over the files it can read and decode. */
    method LoadCachedFinals(files: seq<CachedBox>)
      requires Valid()
      modifies stats, `ledger, `version
      ensures Valid() && Passes(old(MemoryNow()), Load(files), MemoryNow(), Constants())
    {
      for i := 0 to |files|
        invariant version == old(version) && stats.lines == LoadedStats(old(stats.lines), files[..i])
        invariant ledger == old(ledger).(finalCached := old(ledger).finalCached + LoadedFinals(files[..i]))
      {
        var file := files[i];
        assert files[..i + 1][..i] == files[..i];
        if file.gameId == "" || file.slate == OtherSlate("") {
          continue;
        }
        stats.lines := Merged(stats.lines, file.slate, file.lines);
        if file.final {
          ledger := ledger.(finalCached := ledger.finalCached + {file.gameId});
        }
      }
      assert files[..|files|] == files;
      version := version + 1;
    }

    /** The first critical section of fetchBoxScore. */
    method NoteAttempt(slate: SlateId, now: int)
      requires Valid() && slate in SLATES
      modifies `health
      ensures Valid() && Passes(old(MemoryNow()), Attempt(slate, now), MemoryNow(), Constants())
    {
      health := Attempted(health, slate, now);
    }

    /** The second: the instant counts whether or not the request succeeded. */
    method NoteFetch(id: string, now: int)
      requires Valid()
      modifies `ledger
      ensures Valid() && Passes(old(MemoryNow()), BlitzRun.NoteFetch(id, now), MemoryNow(), Constants())
    {
      ledger := ledger.(lastFetch := ledger.lastFetch[id := now]);
    }

    method FailFeed(slate: SlateId, error: string, now: int, teams: set<string>)
      requires Valid() && slate in SLATES
      modifies `health, `boxScoreError, `version, `judged
      ensures Valid() && boxScoreError == old(boxScoreError) + {slate}
      ensures FeedNow() == FailedFeed(old(FeedNow()), slate, error, now, teams, norm, ledger.finalCached, boxScoreError)
    {
      boxScoreError := boxScoreError + {slate};
      health := WithSlate(health, slate, AfterFailure(health.slates[slate], now, error));
      RecountAndBump(now, teams);
    }

    /** The ending of fetchBoxScore after a failed request. */
    method RecordFailure(slate: SlateId, error: string, now: int, teams: set<string>)
      requires Valid() && slate in SLATES
      modifies `health, `boxScoreError, `version, `judged
      ensures Valid() && Passes(old(MemoryNow()), Failure(slate, error, now, teams), MemoryNow(), Constants())
    {
      FailFeed(slate, error, now, teams);
    }

    /** The loop of fetchBoxScore over the live list; it writes the array in place. */
    method MarkFinals(id: string)
      modifies games
      ensures games[..] == MarkFinal(old(games[..]), id)
    {
      for i := 0 to games.Length
        invariant forall k :: 0 <= k < i ==> games[k] == MarkFinal(old(games[..]), id)[k]
        invariant forall k :: i <= k < games.Length ==> games[k] == old(games[k])
      {
        if games[i].id == id {
          games[i] := games[i].(final := true);
        }
      }
    }

    method MarkIfFinal(pick: Pick, final: bool)
      modifies games
      ensures games[..] == MarkedGames(old(games[..]), pick, final)
    {
      if final && !pick.game.final {
        MarkFinals(pick.game.id);
      }
    }

    /** A box score merged, with the recount still to come. */
    method MergeBox(pick: Pick, lines: map<string, Line>, final: bool, now: int)
      requires Pending() && pick.game.slate in SLATES
      modifies games, stats, `ledger, `boxScoreError, `health
      ensures ledger == FinalNoted(old(ledger), pick, final, now)
      ensures boxScoreError == old(boxScoreError) - {pick.game.slate}
      ensures FeedNow() == MergedFeed(old(FeedNow()), pick, lines, final, now)
    {
      var slate := pick.game.slate;
      MarkIfFinal(pick, final);
      var status := BoxStatus(health.slates[slate], games[..], slate, now, slate in scheduleError);
      stats.lines := Merged(stats.lines, slate, lines);
      ledger := FinalNoted(ledger, pick, final, now);
      boxScoreError := boxScoreError - {slate};
      health := WithSlate(health, slate, status);
    }

    method MergeKept(pick: Pick, lines: map<string, Line>, final: bool, now: int)
      requires Pending() && pick.game.slate in SLATES
      modifies games, stats, `ledger, `boxScoreError, `health
      ensures Pending() && ledger == FinalNoted(old(ledger), pick, final, now)
      ensures boxScoreError == old(boxScoreError) - {pick.game.slate}
      ensures FeedNow() == MergedFeed(old(FeedNow()), pick, lines, final, now)
    {
      MergeBox(pick, lines, final, now);
      BoxFeedKeeps(old(FeedNow()), pick, final, now, FeedNow());
    }

    method BoxFeed(pick: Pick, lines: map<string, Line>, final: bool, now: int, teams: set<string>)
      requires Valid() && pick.game.slate in SLATES
      modifies games, stats, `ledger, `boxScoreError, `health, `judged, `version
      ensures Valid() && ledger == FinalNoted(old(ledger), pick, final, now)
      ensures boxScoreError == old(boxScoreError) - {pick.game.slate}
      ensures FeedNow() == BoxedFeed(old(FeedNow()), pick, lines, final, now, teams, norm, ledger.finalCached,
                                     boxScoreError)
    {
      MergeKept(pick, lines, final, now);
      RecountAndBump(now, teams);
    }

    /** The ending of fetchBoxScore after an answer. */
    method RecordBox(pick: Pick, lines: map<string, Line>, final: bool, now: int, teams: set<string>)
      requires Valid() && pick.game.slate in SLATES
      modifies games, stats, `ledger, `boxScoreError, `health, `judged, `version
      ensures Valid() && Passes(old(MemoryNow()), BoxScore(pick, lines, final, now, teams), MemoryNow(), Constants())
    {
      BoxFeed(pick, lines, final, now, teams);
    }

    /** fetchBoxScore. */
    method FetchBoxScore(pick: Pick, answer: BoxAnswer, now: int, teams: set<string>)
      returns (ghost memories: seq<Memory>)
      requires Valid() && pick.game.slate in SLATES
      modifies games, stats, `ledger, `boxScoreError, `health, `judged, `version
      ensures Valid() && Ran(memories, Boxing(pick, answer, now, teams), Constants(), old(MemoryNow()), MemoryNow())
      ensures ledger == Fetched(old(ledger), Fetch(pick, answer.Box? && answer.final), now)
    {
      memories := NoteBoth(pick, now);
      ghost var noted := MemoryNow();
      ghost var notes := [Attempt(pick.game.slate, now), BlitzRun.NoteFetch(pick.game.id, now)];
      ghost var last := RecordAnswer(pick, answer, now, teams);
      RanOne(noted, last, MemoryNow(), Constants());
      RanBoth(memories, notes, [noted, MemoryNow()], [last], Constants(), old(MemoryNow()), noted, MemoryNow());
      assert Boxing(pick, answer, now, teams) == notes + [last];
      memories := memories + [noted, MemoryNow()][1..];
    }

    method NoteBoth(pick: Pick, now: int) returns (ghost memories: seq<Memory>)
      requires Valid() && pick.game.slate in SLATES
      modifies `health, `ledger
      ensures Valid() && ledger == old(ledger).(lastFetch := old(ledger).lastFetch[pick.game.id := now])
      ensures Ran(memories, [Attempt(pick.game.slate, now), BlitzRun.NoteFetch(pick.game.id, now)], Constants(),
                  old(MemoryNow()), MemoryNow())
    {
      NoteAttempt(pick.game.slate, now);
      ghost var attempted := MemoryNow();
      NoteFetch(pick.game.id, now);
      memories := [old(MemoryNow()), attempted, MemoryNow()];
    }

    method RecordAnswer(pick: Pick, answer: BoxAnswer, now: int, teams: set<string>) returns (ghost last: Section)
      requires Valid() && pick.game.slate in SLATES
      modifies games, stats, `ledger, `boxScoreError, `health, `judged, `version
      ensures Valid() && Passes(old(MemoryNow()), last, MemoryNow(), Constants())
      ensures last == Boxing(pick, answer, now, teams)[2]
      ensures ledger == FinalNoted(old(ledger), pick, answer.Box? && answer.final, now)
    {
      match answer {
        case NoBox(error) =>
          RecordFailure(pick.game.slate, error, now, teams);
          last := Failure(pick.game.slate, error, now, teams);
        case Box(lines, final) =>
          RecordBox(pick, lines, final, now, teams);
          last := BoxScore(pick, lines, final, now, teams);
      }
    }

    // -------------------------------------------------------------- the ticker

    method Charge(now: int) returns (ok: bool)
      requires Valid()
      modifies `ledger
      ensures Valid() && Passes(old(MemoryNow()), BlitzRun.Charge(now), MemoryNow(), Constants())
      ensures (ok, ledger) == Charged(old(ledger), dailyBudget, now)
    {
      var charged;
      ok, charged := ChargeBudget(ledger, dailyBudget, now);
      ledger := charged;
    }

    /** refreshSchedulesIfDue: both slates, in either order. */
    method RefreshSchedules(first: SlateId, second: SlateId, answers: SlateId -> string -> Answer, now: int,
                            teams: set<string>)
      returns (ghost memories: seq<Memory>)
      requires Valid() && first in SLATES && second in SLATES && first != second
      modifies `health, `games, `version, `scheduleError, `weekParam, `lastSchedule, `judged
      ensures Valid() && (fresh(games) || games == old(games))
      ensures Ran(memories, Refreshing(old(lastSchedule), first, answers(first), now, teams) +
                            Refreshing(old(lastSchedule), second, answers(second), now, teams), Constants(),
                  old(MemoryNow()), MemoryNow())
    {
      ghost var firsts := Refreshing(lastSchedule, first, answers(first), now, teams);
      ghost var seconds := Refreshing(lastSchedule, second, answers(second), now, teams);
      memories := RefreshSlate(first, answers(first), now, teams);
      ghost var mid := MemoryNow();
      assert Refreshing(lastSchedule, second, answers(second), now, teams) == seconds;
      ghost var more := RefreshSlate(second, answers(second), now, teams);
      RanBoth(memories, firsts, more, seconds, Constants(), old(MemoryNow()), mid, MemoryNow());
      memories := memories + more[1..];
    }

    /** The rest of tick. */
    method FetchIfDue(now: int, teams: set<string>, box: BoxAnswer, teamsAtFetch: set<string>)
      returns (ghost memories: seq<Memory>, ghost pick: Option<Pick>)
      requires Valid()
      modifies games, stats, `ledger, `boxScoreError, `health, `judged, `version
      ensures Valid() && Chosen(old(games[..]), teams, old(ledger), pollInterval, now, pick)
      ensures ledger == LedgerAfter(old(ledger), pick, box, now, dailyBudget)
      ensures Ran(memories, Fetching(old(ledger), pick, box, now, teamsAtFetch, dailyBudget), Constants(),
                  old(MemoryNow()), MemoryNow())
    {
      var picked := SelectFetchTarget(games[..], teams, ledger, pollInterval, now);
      pick := picked;
      if picked == None {
        memories := [MemoryNow()];
        return;
      }
      assert picked.value.game in games[..];
      memories := FetchPicked(picked.value, now, box, teamsAtFetch);
    }

    method FetchPicked(pick: Pick, now: int, box: BoxAnswer, teams: set<string>)
      returns (ghost memories: seq<Memory>)
      requires Valid() && pick.game.slate in SLATES
      modifies games, stats, `ledger, `boxScoreError, `health, `judged, `version
      ensures Valid() && ledger == LedgerAfter(old(ledger), Some(pick), box, now, dailyBudget)
      ensures Ran(memories, Fetching(old(ledger), Some(pick), box, now, teams, dailyBudget), Constants(),
                  old(MemoryNow()), MemoryNow())
    {
      var ok := Charge(now);
      ghost var charged := MemoryNow();
      RanOne(old(MemoryNow()), BlitzRun.Charge(now), charged, Constants());
      memories := [old(MemoryNow()), charged];
      if !ok {
        return;
      }
      ghost var more := FetchBoxScore(pick, box, now, teams);
      RanBoth(memories, [BlitzRun.Charge(now)], more, Boxing(pick, box, now, teams), Constants(), old(MemoryNow()),
              charged, MemoryNow());
      memories := memories + more[1..];
    }

    /** tick: both schedules are refreshed when due, in either order; then at most one box score
        is fetched. The entered teams may change between the three times they are read. `fed` is
        what the lock guards after the refreshes. */
    method OnTick(i: TickInput) returns (ghost memories: seq<Memory>, ghost fed: Memory, ghost pick: Option<Pick>)
      requires Valid() && {i.first, i.second} == SLATES
      modifies this, games, stats
      ensures Valid() && (fresh(games) || games == old(games))
      ensures fed.ledger == old(ledger) && Chosen(fed.feed.view.games, i.teams, old(ledger), pollInterval, i.now, pick)
      ensures ledger == LedgerAfter(old(ledger), pick, i.box, i.now, dailyBudget)
      ensures Ran(memories, TickSections(old(lastSchedule), i, old(ledger), pick, dailyBudget), Constants(),
                  old(MemoryNow()), MemoryNow())
      ensures |RefreshSections(old(lastSchedule), i)| < |memories| &&
              memories[|RefreshSections(old(lastSchedule), i)|] == fed
    {
      BothSlates(i.first, i.second);
      memories := RefreshSchedules(i.first, i.second, i.answers, i.now, i.teamsAtRefresh);
      fed := MemoryNow();
      ghost var more;
      more, pick := FetchIfDue(i.now, i.teams, i.box, i.teamsAtFetch);
      RanBoth(memories, RefreshSections(old(lastSchedule), i), more,
              Fetching(fed.ledger, pick, i.box, i.now, i.teamsAtFetch, dailyBudget), Constants(), old(MemoryNow()), fed,
              MemoryNow());
      memories := memories + more[1..];
    }

    /** The boot part of run; `cached` is None when the cache directory cannot be read. */
    method BootUp(cached: Option<seq<CachedBox>>, i: TickInput)
      returns (ghost memories: seq<Memory>, ghost sections: seq<Section>)
      requires Valid() && {i.first, i.second} == SLATES
      modifies this, stats
      ensures Valid() && (fresh(games) || games == old(games))
      ensures ledger == old(ledger).(finalCached := ledger.finalCached)
      ensures Ran(memories, sections, Constants(), old(MemoryNow()), MemoryNow())
      ensures sections == (if cached.Some? then [Load(cached.value)] else []) +
                          [Boot(i.first, i.second, i.answers, i.now, i.teams)]
    {
      memories, sections := [MemoryNow()], [];
      if cached.Some? {
        LoadCachedFinals(cached.value);
        RanOne(old(MemoryNow()), Load(cached.value), MemoryNow(), Constants());
        memories, sections := [old(MemoryNow()), MemoryNow()], [Load(cached.value)];
      }
      ghost var loaded := MemoryNow();
      ProbeSlates(i.first, i.second, i.answers, i.now, i.teams);
      ghost var boot := Boot(i.first, i.second, i.answers, i.now, i.teams);
      RanOne(loaded, boot, MemoryNow(), Constants());
      RanBoth(memories, sections, [loaded, MemoryNow()], [boot], Constants(), old(MemoryNow()), loaded, MemoryNow());
      memories, sections := memories + [loaded, MemoryNow()][1..], sections + [boot];
    }

    /** The loop of run, over the ticks that arrive before the process ends: all of it is one trace
        of locked sections, and its fetches carry on one run of the fetch plan (`done` and `past`). */
    method Loop(inputs: seq<TickInput>, ghost done: seq<BlitzFetch.Tick>, ghost past: seq<Ledger>)
      returns (ghost memories: seq<Memory>, ghost sections: seq<Section>, ghost ticks: seq<BlitzFetch.Tick>,
               ghost ledgers: seq<Ledger>)
      requires Valid() && BlitzFetch.Run(done, past, pollInterval, dailyBudget) && past[|done|] == ledger
      requires forall i :: i in inputs ==> {i.first, i.second} == SLATES
      modifies this, games, stats
      ensures Valid() && (fresh(games) || games == old(games))
      ensures Ran(memories, sections, Constants(), old(MemoryNow()), MemoryNow())
      ensures BlitzFetch.Run(ticks, ledgers, pollInterval, dailyBudget) && ledgers[|ticks|] == ledger
      ensures done <= ticks && past <= ledgers
    {
      memories, sections, ticks, ledgers := [MemoryNow()], [], done, past;
      for k := 0 to |inputs|
        invariant Valid() && (fresh(games) || games == old(games))
        invariant Ran(memories, sections, Constants(), old(MemoryNow()), MemoryNow())
        invariant BlitzFetch.Run(ticks, ledgers, pollInterval, dailyBudget) && ledgers[|ticks|] == ledger
        invariant done <= ticks && past <= ledgers
      {
        var over := Sunset(inputs[k].now);
        if over {
          return;
        }
        ghost var before := MemoryNow();
        ghost var more, next, t := PlannedTick(inputs[k]);
        RanBoth(memories, sections, more, next, Constants(), old(MemoryNow()), before, MemoryNow());
        memories, sections := memories + more[1..], sections + next;
        RunGrows(ticks, ledgers, t, ledger, pollInterval, dailyBudget);
        ticks, ledgers := ticks + [t], ledgers + [ledger];
      }
    }

    /** A tick as one tick of the fetch plan. */
    method PlannedTick(i: TickInput)
      returns (ghost memories: seq<Memory>, ghost sections: seq<Section>, ghost t: BlitzFetch.Tick)
      requires Valid() && {i.first, i.second} == SLATES
      modifies this, games, stats
      ensures Valid() && (fresh(games) || games == old(games))
      ensures Ran(memories, sections, Constants(), old(MemoryNow()), MemoryNow())
      ensures TickStep(old(ledger), t, ledger, pollInterval, dailyBudget) && t.now == i.now && t.teams == i.teams
    {
      ghost var fed, pick;
      memories, fed, pick := OnTick(i);
      sections := TickSections(old(lastSchedule), i, old(ledger), pick, dailyBudget);
      t := TickOf(fed.feed.view.games, i.teams, old(ledger), pick, i.box, i.now, dailyBudget);
      TickIsStep(fed.feed.view.games, i.teams, old(ledger), pick, i.box, i.now, pollInterval, dailyBudget);
    }

    /** A snapshot handed out at any time stays what it was, however long the poller goes on. */
    method SnapshotThenLoop(inputs: seq<TickInput>, ghost done: seq<BlitzFetch.Tick>, ghost past: seq<Ledger>)
      returns (view: View, copy: array<Game>, table: StatTable, report: Health)
      requires Valid() && BlitzFetch.Run(done, past, pollInterval, dailyBudget) && past[|done|] == ledger
      requires forall i :: i in inputs ==> {i.first, i.second} == SLATES
      modifies this, games, stats
      ensures view == old(Current()) && report == old(health)
      ensures copy[..] == view.games && table.lines == view.stats
    {
      view, copy, table, report := Snapshot();
      ghost var memories, sections, ticks, ledgers := Loop(inputs, done, past);
    }

    /** sunset: two days past the last known pre3 kickoff. */
    method Sunset(now: int) returns (over: bool)
      ensures over <==> (exists g :: g in games[..] && g.slate == Pre3 && g.kickoff > 0) &&
                        forall g :: g in games[..] && g.slate == Pre3 && g.kickoff > 0 ==> now >= g.kickoff + 48 * HOUR
    {
      var last := 0;
      for i := 0 to games.Length
        invariant last >= 0 && (last > 0 <==> exists g :: g in games[..i] && g.slate == Pre3 && g.kickoff > 0)
        invariant last > 0 ==> exists g :: g in games[..i] && g.slate == Pre3 && g.kickoff == last
        invariant forall g :: g in games[..i] && g.slate == Pre3 ==> g.kickoff <= last
      {
        assert games[..i + 1] == games[..i] + [games[i]];
        if games[i].slate == Pre3 && games[i].kickoff > last {
          last := games[i].kickoff;
        }
      }
      assert games[..games.Length] == games[..];
      if last == 0 {
        return false;
      }
      return now >= last + 48 * HOUR;
    }
  }
}
