/** What schedule answers, box scores and recounts do to the preseason feed (blitz_source.go). Feed
    answers, box scores, the entered teams and the clock are parameters. */
module BlitzFeed {
  import opened Text
  import opened BlitzHealth
  import opened BlitzFetch

  type Line = map<string, real>

  const WEEKS: seq<string> := ["2", "3", "4"]

  /** One week's schedule answer, already narrowed to the slate's label. */
  datatype Answer = Refused(error: string) | Listing(candidates: seq<FeedGame>)

  datatype BoxAnswer = NoBox(error: string) | Box(lines: map<string, Line>, final: bool)

  datatype CachedBox = CachedBox(gameId: string, slate: SlateId, final: bool, lines: map<string, Line>)

  // ---------------------------------------------------------------- games in kickoff order

  predicate InKickoffOrder(games: seq<Game>)
  {
    forall i, j :: 0 <= i < j < |games| ==> games[i].kickoff <= games[j].kickoff
  }

  function InsertByKickoff(games: seq<Game>, g: Game): (r: seq<Game>)
    ensures multiset(r) == multiset(games) + multiset{g}
  {
    if games == [] || g.kickoff < games[0].kickoff then [g] + games
    else
      assert games == [games[0]] + games[1..];
      [games[0]] + InsertByKickoff(games[1..], g)
  }

  lemma {:induction false} InsertKeepsOrder(games: seq<Game>, g: Game)
    requires InKickoffOrder(games)
    ensures InKickoffOrder(InsertByKickoff(games, g))
  {
    if games != [] && games[0].kickoff <= g.kickoff {
      var rest := InsertByKickoff(games[1..], g);
      InsertKeepsOrder(games[1..], g);
      forall j | 0 <= j < |rest|
        ensures games[0].kickoff <= rest[j].kickoff
      {
        assert rest[j] in multiset(rest);
        assert rest[j] == g || rest[j] in games[1..];
      }
    }
  }

  /** Stands for sort.Slice by kickoff, which promises no more than this contract. */
  function SortByKickoff(games: seq<Game>): (r: seq<Game>)
    ensures multiset(r) == multiset(games) && InKickoffOrder(r)
  {
    if games == [] then []
    else
      var n := |games| - 1;
      var front := SortByKickoff(games[..n]);
      assert games == games[..n] + [games[n]];
      InsertKeepsOrder(front, games[n]);
      InsertByKickoff(front, games[n])
  }

  lemma {:induction false} HeldCounts(games: seq<Game>, slate: SlateId, g: Game)
    ensures multiset(Held(games, slate))[g] == if g.slate == slate then multiset(games)[g] else 0
  {
    if games != [] {
      var n := |games| - 1;
      assert games == games[..n] + [games[n]];
      HeldCounts(games[..n], slate, g);
    }
  }

  lemma {:induction false} OthersCounts(games: seq<Game>, slate: SlateId, g: Game)
    ensures multiset(Others(games, slate))[g] == if g.slate != slate then multiset(games)[g] else 0
  {
    if games != [] {
      var n := |games| - 1;
      assert games == games[..n] + [games[n]];
      OthersCounts(games[..n], slate, g);
    }
  }

  /** Replacing one slate's games leaves that slate holding the new ones and every other slate
      holding what it held. */
  lemma ReplacedSlate(before: seq<Game>, slate: SlateId, added: seq<Game>, after: seq<Game>, other: SlateId)
    requires multiset(after) == multiset(Others(before, slate)) + multiset(added)
    requires forall g :: g in added ==> g.slate == slate
    ensures multiset(Held(after, slate)) == multiset(added)
    ensures other != slate ==> multiset(Held(after, other)) == multiset(Held(before, other))
  {
    forall g
      ensures multiset(Held(after, slate))[g] == multiset(added)[g]
    {
      ReplacedCount(before, slate, added, after, slate, g);
    }
    if other != slate {
      forall g
        ensures multiset(Held(after, other))[g] == multiset(Held(before, other))[g]
      {
        ReplacedCount(before, slate, added, after, other, g);
      }
    }
  }

  lemma ReplacedCount(before: seq<Game>, slate: SlateId, added: seq<Game>, after: seq<Game>, other: SlateId, g: Game)
    requires multiset(after) == multiset(Others(before, slate)) + multiset(added)
    requires forall h :: h in added ==> h.slate == slate
    ensures multiset(Held(after, other))[g] ==
            if other == slate then multiset(added)[g] else multiset(Held(before, other))[g]
  {
    HeldCounts(after, other, g);
    HeldCounts(before, other, g);
    OthersCounts(before, slate, g);
    assert g in multiset(added) ==> g in added;
  }

  lemma SameGamesSameHealth(st: SlateHealth, a: seq<Game>, b: seq<Game>)
    requires SlateOk(st, a) && multiset(a) == multiset(b)
    ensures SlateOk(st, b)
  {
    FinalsOfMultiset(a, b);
    assert |a| == |multiset(a)| == |multiset(b)| == |b|;
    assert forall g :: g in b ==> g in multiset(b) && g in multiset(a) && g in a;
  }

  function MarkFinal(games: seq<Game>, id: string): (r: seq<Game>)
    ensures |r| == |games|
    ensures forall i :: 0 <= i < |r| ==> r[i] == if games[i].id == id then games[i].(final := true) else games[i]
  {
    seq(|games|, i requires 0 <= i < |games| => if games[i].id == id then games[i].(final := true) else games[i])
  }

  lemma {:induction false} HeldAfterMark(games: seq<Game>, id: string, slate: SlateId)
    ensures Held(MarkFinal(games, id), slate) == MarkFinal(Held(games, slate), id)
  {
    if games != [] {
      var n := |games| - 1;
      HeldAfterMark(games[..n], id, slate);
      assert MarkFinal(games, id)[..n] == MarkFinal(games[..n], id);
      assert MarkFinal(games, id)[n].slate == games[n].slate;
    }
  }

  lemma {:induction false} FinalsAfterMark(games: seq<Game>, id: string)
    ensures Finals(games) <= Finals(MarkFinal(games, id))
  {
    if games != [] {
      var n := |games| - 1;
      FinalsAfterMark(games[..n], id);
      assert MarkFinal(games, id)[..n] == MarkFinal(games[..n], id);
    }
  }

  lemma MarkKeepsSlate(st: SlateHealth, games: seq<Game>, id: string, slate: SlateId)
    requires SlateOk(st, Held(games, slate))
    ensures SlateOk(st, Held(MarkFinal(games, id), slate))
  {
    HeldAfterMark(games, id, slate);
    FinalsAfterMark(Held(games, slate), id);
  }

  // ---------------------------------------------------------------- versions

  /** What a snapshot's version speaks for. */
  datatype View = View(version: int, games: seq<Game>, stats: map<SlateId, map<string, Line>>)

  predicate Advances(a: View, b: View)
  {
    a.version <= b.version && (a.version == b.version ==> a == b)
  }

  // ---------------------------------------------------------------- what Ready tells

  /** What a Ready slate tells a reader: it is whole, nothing about it is failing, and once final
      every score an entered player needs is cached. */
  ghost predicate SoundSlate(st: SlateHealth, games: seq<Game>, slate: SlateId, teams: set<string>,
                             norm: string -> string, cached: set<string>, scheduleError: bool, boxError: bool)
  {
    && st.state == Ready && st.complete && !scheduleError && !boxError
    && (st.final ==> forall g :: g in games && NeedsFinal(g, slate, teams, norm) ==> g.id in cached)
  }

  /** A slate's status judged against the games held and the final scores cached. */
  function JudgedAs(st: SlateHealth, games: seq<Game>, slate: SlateId, teams: set<string>, norm: string -> string,
                    cached: set<string>, scheduleError: bool, boxError: bool): SlateHealth
  {
    var needed := Needed(games, slate, teams, norm);
    Judged(st, |needed|, CachedOf(needed, cached), scheduleError, boxError)
  }

  lemma JudgedSound(st: SlateHealth, games: seq<Game>, slate: SlateId, teams: set<string>, norm: string -> string,
                    cached: set<string>, scheduleError: bool, boxError: bool)
    requires SlateOk(st, Held(games, slate))
    ensures var after := JudgedAs(st, games, slate, teams, norm, cached, scheduleError, boxError);
            SlateOk(after, Held(games, slate)) &&
            (after.state == Ready ==>
              SoundSlate(after, games, slate, teams, norm, cached, scheduleError, boxError))
  {
    var needed, held := Needed(games, slate, teams, norm), Held(games, slate);
    var fetched := CachedOf(needed, cached);
    var after := Judged(st, |needed|, fetched, scheduleError, boxError);
    if after.state == Ready {
      ReadySlate(st, held, |needed|, fetched, scheduleError, boxError);
      NothingMissing(games, slate, teams, norm, cached);
    }
  }

  ghost predicate SlatesValid(h: Health, games: seq<Game>)
  {
    && h.enabled && h.slates.Keys == SLATES
    && SlateOk(h.slates[Pre2], Held(games, Pre2))
    && SlateOk(h.slates[Pre3], Held(games, Pre3))
  }

  ghost predicate ReadyIsSound(h: Health, games: seq<Game>, teams: set<string>, norm: string -> string,
                               cached: set<string>, scheduleError: set<SlateId>, boxError: set<SlateId>)
    requires h.slates.Keys == SLATES
  {
    h.state == Ready ==>
      SoundSlate(h.slates[Pre2], games, Pre2, teams, norm, cached, Pre2 in scheduleError, Pre2 in boxError) &&
      SoundSlate(h.slates[Pre3], games, Pre3, teams, norm, cached, Pre3 in scheduleError, Pre3 in boxError)
  }

  function Recount(h: Health, games: seq<Game>, teams: set<string>, norm: string -> string, cached: set<string>,
                   scheduleError: set<SlateId>, boxError: set<SlateId>, now: int): Health
    requires h.slates.Keys == SLATES
  {
    Summary(
      JudgedAs(h.slates[Pre2], games, Pre2, teams, norm, cached, Pre2 in scheduleError, Pre2 in boxError),
      JudgedAs(h.slates[Pre3], games, Pre3, teams, norm, cached, Pre3 in scheduleError, Pre3 in boxError), now)
  }

  /** A feed that reports Ready after a recount is sound: no schedule or box-score failure is
      pending and no final slate lacks a score that an entered player needs. */
  lemma RecountIsSound(h: Health, games: seq<Game>, teams: set<string>, norm: string -> string, cached: set<string>,
                       scheduleError: set<SlateId>, boxError: set<SlateId>, now: int)
    requires SlatesValid(h, games)
    ensures var after := Recount(h, games, teams, norm, cached, scheduleError, boxError, now);
            SlatesValid(after, games) &&
            ReadyIsSound(after, games, teams, norm, cached, scheduleError, boxError)
  {
    JudgedSound(h.slates[Pre2], games, Pre2, teams, norm, cached, Pre2 in scheduleError, Pre2 in boxError);
    JudgedSound(h.slates[Pre3], games, Pre3, teams, norm, cached, Pre3 in scheduleError, Pre3 in boxError);
    var a := JudgedAs(h.slates[Pre2], games, Pre2, teams, norm, cached, Pre2 in scheduleError, Pre2 in boxError);
    var b := JudgedAs(h.slates[Pre3], games, Pre3, teams, norm, cached, Pre3 in scheduleError, Pre3 in boxError);
  }

  /** The first week whose answer lists the slate. */
  function FirstListing(results: map<string, seq<FeedGame>>, weeks: seq<string>): (week: Option<string>)
    ensures week.Some? ==> week.value in weeks && week.value in results && results[week.value] != []
  {
    if weeks == [] then None
    else if weeks[0] in results && results[weeks[0]] != [] then Some(weeks[0])
    else FirstListing(results, weeks[1..])
  }

  lemma {:induction false} FirstListingSkips(results: map<string, seq<FeedGame>>, weeks: seq<string>, i: nat)
    requires i <= |weeks|
    requires forall k :: 0 <= k < i ==> weeks[k] !in results || results[weeks[k]] == []
    ensures FirstListing(results, weeks) == FirstListing(results, weeks[i..])
    decreases i
  {
    if i > 0 {
      FirstListingSkips(results, weeks, i - 1);
      assert weeks[i - 1..][1..] == weeks[i..];
    } else {
      assert weeks[0..] == weeks;
    }
  }

  // ---------------------------------------------------------------- what each step keeps

  predicate ProperGames(games: seq<Game>)
  {
    InKickoffOrder(games) && forall g :: g in games ==> g.slate in SLATES && g.kickoff != 0
  }

  function WithSlate(h: Health, slate: SlateId, st: SlateHealth): Health
  {
    h.(slates := h.slates[slate := st])
  }

  function Flagged(flags: set<SlateId>, slate: SlateId, on: bool): set<SlateId>
  {
    if on then flags + {slate} else flags - {slate}
  }

  /** The games after an answer listing `slate`: replaced by the placed ones, unless there are none. */
  ghost predicate Replaced(before: seq<Game>, slate: SlateId, placed: seq<FeedGame>, after: seq<Game>)
  {
    && InKickoffOrder(after)
    && multiset(after) == multiset(Others(before, slate)) + multiset(AsGames(placed, slate))
  }

  /** The new game list of applyGamesLocked. */
  method SplicedGames(games: seq<Game>, slate: SlateId, placed: seq<FeedGame>) returns (kept: seq<Game>)
    ensures Replaced(games, slate, placed, kept)
  {
    kept := [];
    for i := 0 to |games|
      invariant kept == Others(games[..i], slate)
    {
      assert games[..i + 1][..i] == games[..i];
      if games[i].slate != slate {
        kept := kept + [games[i]];
      }
    }
    assert games[..|games|] == games;
    ghost var others, added := kept, AsGames(placed, slate);
    for i := 0 to |placed|
      invariant kept == others + added[..i]
    {
      kept := kept + [Game(placed[i].id, slate, placed[i].away, placed[i].home, placed[i].kickoff, placed[i].final)];
      assert added[..i + 1] == added[..i] + [added[i]];
    }
    assert added[..|placed|] == added;
    kept := SortByKickoff(kept);
  }

  lemma ReplacedProper(before: seq<Game>, slate: SlateId, placed: seq<FeedGame>, after: seq<Game>)
    requires ProperGames(before) && slate in SLATES && Replaced(before, slate, placed, after)
    requires forall g :: g in placed ==> g.kickoff != 0
    ensures ProperGames(after)
  {
    forall g | g in after
      ensures g.slate in SLATES && g.kickoff != 0
    {
      assert g in multiset(after);
      OthersCounts(before, slate, g);
      assert g in multiset(before) || g in AsGames(placed, slate);
    }
  }

  function OtherOf(slate: SlateId): SlateId
  {
    if slate == Pre2 then Pre3 else Pre2
  }

  lemma Assembled(h: Health, games: seq<Game>, slate: SlateId, st: SlateHealth)
    requires h.enabled && h.slates.Keys == SLATES && slate in SLATES
    requires SlateOk(st, Held(games, slate))
    requires SlateOk(h.slates[OtherOf(slate)], Held(games, OtherOf(slate)))
    ensures SlatesValid(WithSlate(h, slate, st), games)
  {
  }

  lemma OtherSlateKept(st: SlateHealth, before: seq<Game>, slate: SlateId, placed: seq<FeedGame>, after: seq<Game>,
                       other: SlateId)
    requires other != slate && SlateOk(st, Held(before, other))
    requires Replaced(before, slate, placed, after)
    ensures SlateOk(st, Held(after, other))
  {
    ReplacedSlate(before, slate, AsGames(placed, slate), after, other);
    SameGamesSameHealth(st, Held(before, other), Held(after, other));
  }

  lemma ListedKeeps(h: Health, before: seq<Game>, after: seq<Game>, slate: SlateId, candidates: seq<FeedGame>, now: int,
                    boxError: bool)
    requires SlatesValid(h, before) && slate in SLATES && candidates != []
    requires var placed := Placed(candidates);
             if placed == [] then after == before else Replaced(before, slate, placed, after)
    ensures SlatesValid(WithSlate(h, slate, Listed(h.slates[slate], candidates, now, boxError)), after)
  {
    var placed, other := Placed(candidates), OtherOf(slate);
    if placed != [] {
      ReplacedSlate(before, slate, AsGames(placed, slate), after, slate);
      OtherSlateKept(h.slates[other], before, slate, placed, after, other);
    }
    ListedOk(h.slates[slate], candidates, now, boxError, slate, Held(after, slate));
    Assembled(h, after, slate, Listed(h.slates[slate], candidates, now, boxError));
  }

  lemma UnlistedKeeps(h: Health, games: seq<Game>, slate: SlateId, now: int, failed: bool)
    requires SlatesValid(h, games) && slate in SLATES
    ensures SlatesValid(WithSlate(h, slate, Unlisted(h.slates[slate], now, failed)), games)
  {
    UnlistedOk(h.slates[slate], Held(games, slate), now, failed);
    Assembled(h, games, slate, Unlisted(h.slates[slate], now, failed));
  }

  /** The matched branch of resolveSlateLocked. */
  method ListedStatus(st: SlateHealth, candidates: seq<FeedGame>, now: int, boxError: bool)
    returns (status: SlateHealth, placed: seq<FeedGame>)
    requires candidates != []
    ensures status == Listed(st, candidates, now, boxError) && placed == Placed(candidates)
  {
    var dropped;
    placed, dropped := GamesWithKickoff(candidates);
    var finals := CountFinals(placed);
    status := st.(lastAttempt := now, expected := |candidates|, fetched := |placed|, finals := finals,
                  complete := dropped == 0, verifiedZero := false, lastSuccess := now);
    if !boxError {
      status := status.(error := NoNote);
    }
    if dropped > 0 {
      status := status.(state := Degraded, error := NoKickoff);
    } else {
      status := status.(state := Ready);
    }
    if status.complete && status.finals == status.expected {
      status := status.(final := status.expected > 0);
    } else {
      status := status.(final := false);
    }
  }

  /** Its unmatched branch. */
  method UnlistedStatus(st: SlateHealth, now: int, failed: bool) returns (status: SlateHealth)
    ensures status == Unlisted(st, now, failed)
  {
    status := st.(lastAttempt := now, error := Unpublished);
    if failed {
      if status.lastSuccess != 0 || status.complete {
        status := status.(state := Degraded);
      } else {
        status := status.(state := Error);
      }
    } else {
      status := status.(state := Loading);
    }
    status := status.(complete := status.complete && status.fetched == status.expected);
    status := status.(final := status.complete && status.final);
  }

  /** What a schedule answer can change, and the weeks a probe asks for. */
  datatype Feed = Feed(
    weeks: seq<string>, weekParam: map<SlateId, string>, scheduleError: set<SlateId>, health: Health, view: View)

  ghost predicate ViewAfterListing(before: View, slate: SlateId, placed: seq<FeedGame>, after: View)
  {
    if placed == [] then after == before
    else
      exists games ::
        Replaced(before.games, slate, placed, games) && after == View(before.version + 1, games, before.stats)
  }

  /** What an answer listing the slate records, beside the new `view`. */
  function ListingFeed(before: Feed, slate: SlateId, week: string, candidates: seq<FeedGame>, now: int, boxError: bool,
                       view: View): Feed
    requires slate in before.health.slates
  {
    Feed(before.weeks, before.weekParam[slate := week],
         Flagged(before.scheduleError, slate, |Placed(candidates)| < |candidates|),
         WithSlate(before.health, slate, Listed(before.health.slates[slate], candidates, now, boxError)), view)
  }

  ghost predicate AfterListing(before: Feed, slate: SlateId, week: string, candidates: seq<FeedGame>, now: int,
                               boxError: bool, after: Feed)
    requires slate in before.health.slates
  {
    && ViewAfterListing(before.view, slate, Placed(candidates), after.view)
    && after == ListingFeed(before, slate, week, candidates, now, boxError, after.view)
  }

  ghost predicate PendingFeed(f: Feed)
  {
    ProperGames(f.view.games) && SlatesValid(f.health, f.view.games)
  }

  lemma ListingKeeps(before: Feed, slate: SlateId, week: string, candidates: seq<FeedGame>, now: int, boxError: bool,
                     after: Feed)
    requires PendingFeed(before) && slate in SLATES && candidates != []
    requires AfterListing(before, slate, week, candidates, now, boxError, after)
    ensures PendingFeed(after)
  {
    if Placed(candidates) != [] {
      PlacedGames(candidates);
      ReplacedProper(before.view.games, slate, Placed(candidates), after.view.games);
    }
    ListedKeeps(before.health, before.view.games, after.view.games, slate, candidates, now, boxError);
  }

  function AfterNoListing(before: Feed, slate: SlateId, now: int, failed: bool): Feed
    requires slate in before.health.slates
  {
    before.(scheduleError := Flagged(before.scheduleError, slate, failed),
            health := WithSlate(before.health, slate, Unlisted(before.health.slates[slate], now, failed)))
  }

  ghost predicate Resolved(before: Feed, slate: SlateId, results: map<string, seq<FeedGame>>, now: int, failed: bool,
                           boxError: bool, after: Feed)
    requires slate in before.health.slates
  {
    match FirstListing(results, before.weeks)
    case Some(week) => AfterListing(before, slate, week, results[week], now, boxError, after)
    case None => after == AfterNoListing(before, slate, now, failed)
  }

  function Listings(answer: string -> Answer, weeks: seq<string>): map<string, seq<FeedGame>>
  {
    if weeks == [] then map[]
    else
      var week, rest := weeks[|weeks| - 1], Listings(answer, weeks[..|weeks| - 1]);
      match answer(week)
      case Refused(_) => rest
      case Listing(candidates) => rest[week := candidates]
  }

  predicate AnyRefused(answer: string -> Answer, weeks: seq<string>)
  {
    exists i :: 0 <= i < |weeks| && answer(weeks[i]).Refused?
  }

  /** The requests of probeSlates and probeUnresolvedSlate, as one slate sees their answers. */
  method ProbeWeeks(weeks: seq<string>, answer: string -> Answer)
    returns (results: map<string, seq<FeedGame>>, failed: bool)
    ensures results == Listings(answer, weeks) && failed == AnyRefused(answer, weeks)
  {
    results, failed := map[], false;
    for i := 0 to |weeks|
      invariant results == Listings(answer, weeks[..i])
      invariant failed <==> exists k :: 0 <= k < i && answer(weeks[k]).Refused?
    {
      assert weeks[..i + 1][..i] == weeks[..i];
      match answer(weeks[i])
      case Refused(_) => failed := true;
      case Listing(candidates) => results := results[weeks[i] := candidates];
    }
    assert weeks[..|weeks|] == weeks;
  }

  function RecountFeed(f: Feed, teams: set<string>, norm: string -> string, cached: set<string>,
                       boxError: set<SlateId>, now: int): Feed
    requires f.health.slates.Keys == SLATES
  {
    f.(health := Recount(f.health, f.view.games, teams, norm, cached, f.scheduleError, boxError, now))
  }

  /** A probe: the slate resolved from every week's answer. */
  ghost predicate Probed(before: Feed, slate: SlateId, answer: string -> Answer, now: int, boxError: bool, after: Feed)
    requires slate in before.health.slates
  {
    exists results ::
      results == Listings(answer, before.weeks) &&
      Resolved(before, slate, results, now, AnyRefused(answer, before.weeks), boxError, after)
  }

  /** What a due schedule refresh does before the recount. */
  ghost predicate Answered(before: Feed, slate: SlateId, answer: string -> Answer, now: int, boxError: bool, mid: Feed)
    requires slate in before.health.slates
  {
    if slate !in before.weekParam then
      Probed(before, slate, answer, now, boxError, mid)
    else
      match answer(before.weekParam[slate])
      case Refused(error) =>
        mid == before.(scheduleError := before.scheduleError + {slate},
                       health := WithSlate(before.health, slate, AfterFailure(before.health.slates[slate], now, error)))
      case Listing(candidates) =>
        Resolved(before.(scheduleError := before.scheduleError - {slate}), slate,
                 map[before.weekParam[slate] := candidates], now, false, boxError, mid)
  }

  /** A slate's status when a request for it failed. */
  function AfterFailure(st: SlateHealth, now: int, error: string): SlateHealth
  {
    st.(lastAttempt := now, state := Degraded, error := Provider(error))
  }

  /** A slate's status when a box score arrived, before the recount. */
  function AfterBox(st: SlateHealth, held: seq<Game>, now: int, scheduleError: bool): SlateHealth
  {
    Recounted(st.(lastAttempt := now, lastSuccess := now, error := if scheduleError then st.error else NoNote), held)
  }

  lemma BoxKeeps(h: Health, before: seq<Game>, after: seq<Game>, id: string, slate: SlateId, now: int,
                 scheduleError: bool)
    requires SlatesValid(h, before) && slate in SLATES
    requires after == before || after == MarkFinal(before, id)
    ensures SlatesValid(WithSlate(h, slate, AfterBox(h.slates[slate], Held(after, slate), now, scheduleError)), after)
  {
    var st, other := h.slates[slate], OtherOf(slate);
    if after != before {
      MarkKeepsSlate(h.slates[other], before, id, other);
      HeldAfterMark(before, id, slate);
    }
    RecountedOk(st.(lastAttempt := now, lastSuccess := now, error := if scheduleError then st.error else NoNote),
                Held(after, slate));
    Assembled(h, after, slate, AfterBox(st, Held(after, slate), now, scheduleError));
  }

  function LastSchedule(instants: map<SlateId, int>, slate: SlateId): int
  {
    if slate in instants then instants[slate] else 0
  }

  predicate RefreshDue(instants: map<SlateId, int>, slate: SlateId, now: int)
  {
    now - LastSchedule(instants, slate) >= SCHEDULE_REFRESH
  }

  /** A whole schedule refresh. */
  ghost predicate Refreshed(before: Feed, slate: SlateId, answer: string -> Answer, now: int, teams: set<string>,
                            norm: string -> string, cached: set<string>, boxError: set<SlateId>, after: Feed)
    requires slate in before.health.slates
  {
    exists mid: Feed ::
      Answered(before, slate, answer, now, slate in boxError, mid) && mid.health.slates.Keys == SLATES &&
      after == RecountFeed(mid, teams, norm, cached, boxError, now)
  }

  /** The whole boot probe: one slate, the other, then one recount. */
  ghost predicate Booted(before: Feed, first: SlateId, second: SlateId, answers: SlateId -> string -> Answer, now: int,
                         teams: set<string>, norm: string -> string, cached: set<string>, boxError: set<SlateId>,
                         after: Feed)
    requires first in before.health.slates && second in SLATES
  {
    exists mid: Feed, probed: Feed ::
      mid.health.slates.Keys == probed.health.slates.Keys == SLATES &&
      Probed(before, first, answers(first), now, first in boxError, mid) &&
      Probed(mid, second, answers(second), now, second in boxError, probed) &&
      after == RecountFeed(probed, teams, norm, cached, boxError, now)
  }

  /** The games that decide a slate: those of the first week that lists it, or none. */
  function Deciding(f: Feed, slate: SlateId, answer: string -> Answer): seq<FeedGame>
  {
    if slate !in f.weekParam then DecidingProbe(f, answer)
    else
      match answer(f.weekParam[slate])
      case Refused(_) => []
      case Listing(candidates) => if f.weekParam[slate] in f.weeks then candidates else []
  }

  function DecidingProbe(f: Feed, answer: string -> Answer): seq<FeedGame>
  {
    FirstListed(Listings(answer, f.weeks), f.weeks)
  }

  function FirstListed(results: map<string, seq<FeedGame>>, weeks: seq<string>): seq<FeedGame>
  {
    match FirstListing(results, weeks)
    case Some(week) => results[week]
    case None => []
  }

  predicate ListsGames(answer: Answer)
  {
    answer.Listing? && answer.candidates != []
  }

  lemma {:induction false} ListingsHold(answer: string -> Answer, weeks: seq<string>)
    ensures forall week :: week in Listings(answer, weeks) <==> week in weeks && answer(week).Listing?
    ensures forall week :: week in Listings(answer, weeks) ==> Listings(answer, weeks)[week] == answer(week).candidates
  {
    if weeks != [] {
      var n := |weeks| - 1;
      ListingsHold(answer, weeks[..n]);
      assert weeks == weeks[..n] + [weeks[n]];
    }
  }

  lemma {:induction false} FirstListingIs(results: map<string, seq<FeedGame>>, weeks: seq<string>, i: nat)
    requires i <= |weeks| && forall k :: 0 <= k < i ==> weeks[k] !in results || results[weeks[k]] == []
    requires i < |weeks| ==> weeks[i] in results && results[weeks[i]] != []
    ensures FirstListing(results, weeks) == if i < |weeks| then Some(weeks[i]) else None
  {
    if i > 0 {
      assert forall k :: 0 <= k < i - 1 ==> weeks[1..][k] == weeks[k + 1];
      FirstListingIs(results, weeks[1..], i - 1);
    }
  }

  /** A probe is decided by the first week, in the order asked, whose answer lists games. */
  lemma ProbeDecides(f: Feed, answer: string -> Answer, i: nat)
    requires i <= |f.weeks| && forall k :: 0 <= k < i ==> !ListsGames(answer(f.weeks[k]))
    requires i < |f.weeks| ==> ListsGames(answer(f.weeks[i]))
    ensures DecidingProbe(f, answer) == if i < |f.weeks| then answer(f.weeks[i]).candidates else []
    ensures FirstListing(Listings(answer, f.weeks), f.weeks) == if i < |f.weeks| then Some(f.weeks[i]) else None
  {
    ListingsHold(answer, f.weeks);
    FirstListingIs(Listings(answer, f.weeks), f.weeks, i);
  }

  lemma {:induction false} OnlyListing(week: string, candidates: seq<FeedGame>, weeks: seq<string>)
    ensures FirstListing(map[week := candidates], weeks) ==
            if candidates != [] && week in weeks then Some(week) else None
  {
    if weeks != [] {
      assert weeks == [weeks[0]] + weeks[1..];
      OnlyListing(week, candidates, weeks[1..]);
    }
  }

  ghost predicate GamesFollow(before: seq<Game>, slate: SlateId, placed: seq<FeedGame>, after: seq<Game>)
  {
    if placed == [] then after == before else Replaced(before, slate, placed, after)
  }

  /** What an answer does to the view: the version goes up by one and the slate's games are
      replaced when the answer places a game, and otherwise both are left alone; the stats are left
      alone in any case. The slate's attempt is noted. */
  ghost predicate ViewFollows(before: Feed, slate: SlateId, deciding: seq<FeedGame>, now: int, after: Feed)
  {
    && (if Placed(deciding) == [] then after.view == before.view else after.view.version == before.view.version + 1)
    && GamesFollow(before.view.games, slate, Placed(deciding), after.view.games)
    && after.view.stats == before.view.stats
    && slate in after.health.slates && after.health.slates[slate].lastAttempt == now
  }

  lemma ResolvedView(before: Feed, slate: SlateId, results: map<string, seq<FeedGame>>, now: int, failed: bool,
                     boxError: bool, after: Feed)
    requires slate in before.health.slates && Resolved(before, slate, results, now, failed, boxError, after)
    ensures ViewFollows(before, slate, FirstListed(results, before.weeks), now, after) && after.weeks == before.weeks
  {
    match FirstListing(results, before.weeks)
    case Some(_) =>
    case None =>
  }

  lemma ProbedView(before: Feed, slate: SlateId, answer: string -> Answer, now: int, boxError: bool, after: Feed)
    requires slate in before.health.slates && Probed(before, slate, answer, now, boxError, after)
    ensures ViewFollows(before, slate, DecidingProbe(before, answer), now, after) && after.weeks == before.weeks
  {
    ResolvedView(before, slate, Listings(answer, before.weeks), now, AnyRefused(answer, before.weeks), boxError, after);
  }

  lemma AnsweredView(before: Feed, slate: SlateId, answer: string -> Answer, now: int, boxError: bool, after: Feed)
    requires slate in before.health.slates && Answered(before, slate, answer, now, boxError, after)
    ensures ViewFollows(before, slate, Deciding(before, slate, answer), now, after)
  {
    if slate !in before.weekParam {
      ProbedView(before, slate, answer, now, boxError, after);
    } else {
      match answer(before.weekParam[slate])
      case Refused(_) =>
      case Listing(candidates) => ListedAnswerView(before, slate, candidates, now, boxError, after);
    }
  }

  lemma ListedAnswerView(before: Feed, slate: SlateId, candidates: seq<FeedGame>, now: int, boxError: bool, after: Feed)
    requires slate in before.health.slates && slate in before.weekParam
    requires Resolved(before.(scheduleError := before.scheduleError - {slate}), slate,
                      map[before.weekParam[slate] := candidates], now, false, boxError, after)
    ensures ViewFollows(before, slate, if before.weekParam[slate] in before.weeks then candidates else [], now, after)
  {
    var week, cleared := before.weekParam[slate], before.(scheduleError := before.scheduleError - {slate});
    ResolvedView(cleared, slate, map[week := candidates], now, false, boxError, after);
    OnlyListing(week, candidates, before.weeks);
  }

  lemma RecountKeepsAttempt(h: Health, games: seq<Game>, teams: set<string>, norm: string -> string,
                            cached: set<string>, scheduleError: set<SlateId>, boxError: set<SlateId>, now: int,
                            slate: SlateId)
    requires h.slates.Keys == SLATES && slate in SLATES
    ensures var after := Recount(h, games, teams, norm, cached, scheduleError, boxError, now);
            after.slates.Keys == SLATES && after.slates[slate].lastAttempt == h.slates[slate].lastAttempt
  {
    var a := JudgedAs(h.slates[Pre2], games, Pre2, teams, norm, cached, Pre2 in scheduleError, Pre2 in boxError);
    var b := JudgedAs(h.slates[Pre3], games, Pre3, teams, norm, cached, Pre3 in scheduleError, Pre3 in boxError);
    assert a.lastAttempt == h.slates[Pre2].lastAttempt && b.lastAttempt == h.slates[Pre3].lastAttempt;
    assert Recount(h, games, teams, norm, cached, scheduleError, boxError, now).slates == map[Pre2 := a, Pre3 := b];
  }

  lemma RecountedView(before: Feed, slate: SlateId, deciding: seq<FeedGame>, now: int, mid: Feed, teams: set<string>,
                      norm: string -> string, cached: set<string>, boxError: set<SlateId>)
    requires slate in SLATES && mid.health.slates.Keys == SLATES && ViewFollows(before, slate, deciding, now, mid)
    ensures ViewFollows(before, slate, deciding, now, RecountFeed(mid, teams, norm, cached, boxError, now))
  {
    RecountKeepsAttempt(mid.health, mid.view.games, teams, norm, cached, mid.scheduleError, boxError, now, slate);
  }

  lemma RefreshedView(before: Feed, slate: SlateId, answer: string -> Answer, now: int, teams: set<string>,
                      norm: string -> string, cached: set<string>, boxError: set<SlateId>, after: Feed)
    requires slate in SLATES && slate in before.health.slates
    ensures Refreshed(before, slate, answer, now, teams, norm, cached, boxError, after) ==>
              ViewFollows(before, slate, Deciding(before, slate, answer), now, after)
  {
    if Refreshed(before, slate, answer, now, teams, norm, cached, boxError, after) {
      var mid: Feed :|
        Answered(before, slate, answer, now, slate in boxError, mid) && mid.health.slates.Keys == SLATES &&
        after == RecountFeed(mid, teams, norm, cached, boxError, now);
      AnsweredView(before, slate, answer, now, slate in boxError, mid);
      RecountedView(before, slate, Deciding(before, slate, answer), now, mid, teams, norm, cached, boxError);
    }
  }

  lemma BootedView(before: Feed, first: SlateId, second: SlateId, answers: SlateId -> string -> Answer, now: int,
                   teams: set<string>, norm: string -> string, cached: set<string>, boxError: set<SlateId>, after: Feed)
    requires first in before.health.slates && second in SLATES
    ensures Booted(before, first, second, answers, now, teams, norm, cached, boxError, after) ==>
              && Advances(before.view, after.view)
              && (after.view.version > before.view.version <==>
                    Placed(DecidingProbe(before, answers(first))) != [] ||
                    Placed(DecidingProbe(before, answers(second))) != [])
              && second in after.health.slates && after.health.slates[second].lastAttempt == now
              && after.view.stats == before.view.stats
  {
    if Booted(before, first, second, answers, now, teams, norm, cached, boxError, after) {
      var mid: Feed, probed: Feed :|
        mid.health.slates.Keys == probed.health.slates.Keys == SLATES &&
        Probed(before, first, answers(first), now, first in boxError, mid) &&
        Probed(mid, second, answers(second), now, second in boxError, probed) &&
        after == RecountFeed(probed, teams, norm, cached, boxError, now);
      ProbedView(before, first, answers(first), now, first in boxError, mid);
      ProbedView(mid, second, answers(second), now, second in boxError, probed);
      RecountedView(mid, second, DecidingProbe(mid, answers(second)), now, probed, teams, norm, cached, boxError);
    }
  }

  // ---------------------------------------------------------------- what answers keep

  lemma ResolvedPending(before: Feed, slate: SlateId, results: map<string, seq<FeedGame>>, now: int, failed: bool,
                        boxError: bool, after: Feed)
    requires PendingFeed(before) && slate in SLATES && Resolved(before, slate, results, now, failed, boxError, after)
    ensures PendingFeed(after)
  {
    match FirstListing(results, before.weeks)
    case Some(week) => ListingKeeps(before, slate, week, results[week], now, boxError, after);
    case None => UnlistedKeeps(before.health, before.view.games, slate, now, failed);
  }

  lemma ProbedPending(before: Feed, slate: SlateId, answer: string -> Answer, now: int, boxError: bool, after: Feed)
    requires PendingFeed(before) && slate in SLATES && Probed(before, slate, answer, now, boxError, after)
    ensures PendingFeed(after)
  {
    ResolvedPending(before, slate, Listings(answer, before.weeks), now, AnyRefused(answer, before.weeks), boxError,
                    after);
  }

  lemma AnsweredPending(before: Feed, slate: SlateId, answer: string -> Answer, now: int, boxError: bool, after: Feed)
    requires PendingFeed(before) && slate in SLATES && Answered(before, slate, answer, now, boxError, after)
    ensures PendingFeed(after)
  {
    if slate !in before.weekParam {
      ProbedPending(before, slate, answer, now, boxError, after);
    } else {
      match answer(before.weekParam[slate])
      case Refused(_) =>
      case Listing(candidates) =>
        ResolvedPending(before.(scheduleError := before.scheduleError - {slate}), slate,
                        map[before.weekParam[slate] := candidates], now, false, boxError, after);
    }
  }

  /** Every recount leaves the slates sound, and a Ready report true of the entered teams it read. */
  lemma RecountedPending(f: Feed, teams: set<string>, norm: string -> string, cached: set<string>,
                         boxError: set<SlateId>, now: int)
    requires PendingFeed(f)
    ensures var after := RecountFeed(f, teams, norm, cached, boxError, now);
            PendingFeed(after) &&
            ReadyIsSound(after.health, after.view.games, teams, norm, cached, after.scheduleError, boxError)
  {
    RecountIsSound(f.health, f.view.games, teams, norm, cached, f.scheduleError, boxError, now);
  }

  lemma RefreshedPending(before: Feed, slate: SlateId, answer: string -> Answer, now: int, teams: set<string>,
                         norm: string -> string, cached: set<string>, boxError: set<SlateId>, after: Feed)
    requires PendingFeed(before) && slate in SLATES
    ensures Refreshed(before, slate, answer, now, teams, norm, cached, boxError, after) ==>
              PendingFeed(after) &&
              ReadyIsSound(after.health, after.view.games, teams, norm, cached, after.scheduleError, boxError)
  {
    if Refreshed(before, slate, answer, now, teams, norm, cached, boxError, after) {
      var mid: Feed :|
        Answered(before, slate, answer, now, slate in boxError, mid) && mid.health.slates.Keys == SLATES &&
        after == RecountFeed(mid, teams, norm, cached, boxError, now);
      AnsweredPending(before, slate, answer, now, slate in boxError, mid);
      RecountedPending(mid, teams, norm, cached, boxError, now);
    }
  }

  lemma BootedPending(before: Feed, first: SlateId, second: SlateId, answers: SlateId -> string -> Answer, now: int,
                      teams: set<string>, norm: string -> string, cached: set<string>, boxError: set<SlateId>,
                      after: Feed)
    requires PendingFeed(before) && first in SLATES && second in SLATES
    ensures Booted(before, first, second, answers, now, teams, norm, cached, boxError, after) ==>
              PendingFeed(after) &&
              ReadyIsSound(after.health, after.view.games, teams, norm, cached, after.scheduleError, boxError)
  {
    if Booted(before, first, second, answers, now, teams, norm, cached, boxError, after) {
      var mid: Feed, probed: Feed :|
        mid.health.slates.Keys == probed.health.slates.Keys == SLATES &&
        Probed(before, first, answers(first), now, first in boxError, mid) &&
        Probed(mid, second, answers(second), now, second in boxError, probed) &&
        after == RecountFeed(probed, teams, norm, cached, boxError, now);
      ProbedPending(before, first, answers(first), now, first in boxError, mid);
      ProbedPending(mid, second, answers(second), now, second in boxError, probed);
      RecountedPending(probed, teams, norm, cached, boxError, now);
    }
  }

  // ---------------------------------------------------------------- box scores

  method CountHeld(games: seq<Game>, slate: SlateId) returns (fetched: nat, finals: nat)
    ensures fetched == |Held(games, slate)| && finals == Finals(Held(games, slate))
  {
    fetched, finals := 0, 0;
    for i := 0 to |games|
      invariant fetched == |Held(games[..i], slate)| && finals == Finals(Held(games[..i], slate))
    {
      assert games[..i + 1][..i] == games[..i];
      if games[i].slate != slate {
        continue;
      }
      ghost var held := Held(games[..i], slate);
      assert (held + [games[i]])[..|held|] == held;
      fetched := fetched + 1;
      if games[i].final {
        finals := finals + 1;
      }
    }
    assert games[..|games|] == games;
  }

  /** refreshSlateFinalityLocked. */
  method RefreshFinality(st: SlateHealth, games: seq<Game>, slate: SlateId) returns (status: SlateHealth)
    ensures status == Recounted(st, Held(games, slate))
  {
    var fetched, finals := CountHeld(games, slate);
    status := st.(fetched := fetched, finals := finals);
    status := status.(final := status.complete && status.expected > 0 && status.finals == status.expected);
  }

  /** A player's newest line wins; every other line stays. */
  function Merged(stats: map<SlateId, map<string, Line>>, slate: SlateId, lines: map<string, Line>)
    : map<SlateId, map<string, Line>>
  {
    stats[slate := (if slate in stats then stats[slate] else map[]) + lines]
  }

  predicate Usable(file: CachedBox)
  {
    file.gameId != "" && file.slate != OtherSlate("")
  }

  function LoadedStats(stats: map<SlateId, map<string, Line>>, files: seq<CachedBox>): map<SlateId, map<string, Line>>
  {
    if files == [] then stats
    else
      var file, rest := files[|files| - 1], LoadedStats(stats, files[..|files| - 1]);
      if Usable(file) then Merged(rest, file.slate, file.lines) else rest
  }

  function LoadedFinals(files: seq<CachedBox>): (ids: set<string>)
  {
    if files == [] then {}
    else
      var file, rest := files[|files| - 1], LoadedFinals(files[..|files| - 1]);
      if Usable(file) && file.final then rest + {file.gameId} else rest
  }

  function MarkedGames(games: seq<Game>, pick: Pick, final: bool): seq<Game>
  {
    if final && !pick.game.final then MarkFinal(games, pick.game.id) else games
  }

  /** What a box score adds to the memory besides the instant of the fetch. */
  function FinalNoted(l: Ledger, pick: Pick, final: bool, now: int): Ledger
  {
    if !final then l
    else
      l.(finalCached := l.finalCached + {pick.game.id},
         catchUpDone := if pick.catchUp then l.catchUpDone[pick.game.id := Day(now)] else l.catchUpDone)
  }

  /** The feed after a failed request; `cached` and `boxError` are the sets after it. */
  function FailedFeed(f: Feed, slate: SlateId, error: string, now: int, teams: set<string>, norm: string -> string,
                      cached: set<string>, boxError: set<SlateId>): Feed
    requires f.health.slates.Keys == SLATES && slate in SLATES
  {
    var failed := WithSlate(f.health, slate, AfterFailure(f.health.slates[slate], now, error));
    RecountFeed(f.(health := failed), teams, norm, cached, boxError, now)
      .(view := f.view.(version := f.view.version + 1))
  }

  /** The feed with a box score merged, before the recount. */
  function MergedFeed(f: Feed, pick: Pick, lines: map<string, Line>, final: bool, now: int): Feed
    requires pick.game.slate in f.health.slates
  {
    var slate, games := pick.game.slate, MarkedGames(f.view.games, pick, final);
    f.(view := View(f.view.version, games, Merged(f.view.stats, slate, lines)),
       health := WithSlate(f.health, slate, AfterBox(f.health.slates[slate], Held(games, slate), now,
                                                     slate in f.scheduleError)))
  }

  /** The feed after a box score. */
  function BoxedFeed(f: Feed, pick: Pick, lines: map<string, Line>, final: bool, now: int, teams: set<string>,
                     norm: string -> string, cached: set<string>, boxError: set<SlateId>): Feed
    requires f.health.slates.Keys == SLATES && pick.game.slate in SLATES
  {
    var merged := MergedFeed(f, pick, lines, final, now);
    RecountFeed(merged, teams, norm, cached, boxError, now).(view := merged.view.(version := f.view.version + 1))
  }

  lemma BoxFeedKeeps(before: Feed, pick: Pick, final: bool, now: int, after: Feed)
    requires PendingFeed(before) && pick.game.slate in SLATES
    requires after.view.games == MarkedGames(before.view.games, pick, final)
    requires var slate := pick.game.slate;
             after.health == WithSlate(before.health, slate,
                                       AfterBox(before.health.slates[slate], Held(after.view.games, slate), now,
                                                slate in before.scheduleError))
    ensures PendingFeed(after)
  {
    BoxKeeps(before.health, before.view.games, after.view.games, pick.game.id, pick.game.slate, now,
             pick.game.slate in before.scheduleError);
  }

  /** The status fetchBoxScore writes for an answered slate. */
  method BoxStatus(st: SlateHealth, games: seq<Game>, slate: SlateId, now: int, scheduleError: bool)
    returns (status: SlateHealth)
    ensures status == AfterBox(st, Held(games, slate), now, scheduleError)
  {
    status := st.(lastAttempt := now, lastSuccess := now);
    if !scheduleError {
      status := status.(error := NoNote);
    }
    status := RefreshFinality(status, games, slate);
  }

  function Attempted(h: Health, slate: SlateId, now: int): Health
    requires slate in h.slates
  {
    WithSlate(h, slate, h.slates[slate].(lastAttempt := now)).(lastAttempt := now)
  }
}
