/** What the snapshots of the preseason poller show (blitz_source.go): the games of the latest
    listing, with the finals marked since, and every player's latest line. */
module BlitzShown {
  import opened Text
  import opened BlitzHealth
  import opened BlitzFetch
  import opened BlitzFeed
  import opened BlitzRun

  // ---------------------------------------------------------------- lines

  function LineOf(stats: map<SlateId, map<string, Line>>, slate: SlateId, player: string): Option<Line>
  {
    if slate in stats && player in stats[slate] then Some(stats[slate][player]) else None
  }

  /** The player's line in the last file that has one for the slate; a file without a game or a
      slate has none. */
  function LastLine(files: seq<CachedBox>, slate: SlateId, player: string): Option<Line>
  {
    if files == [] || slate == OtherSlate("") then None
    else
      var file := files[|files| - 1];
      if file.gameId != "" && file.slate == slate && player in file.lines then Some(file.lines[player])
      else LastLine(files[..|files| - 1], slate, player)
  }

  /** The line a section names for the player under the slate. */
  function NamedLine(section: Section, slate: SlateId, player: string): Option<Line>
  {
    match section
    case Load(files) => LastLine(files, slate, player)
    case BoxScore(pick, lines, _, _, _) =>
      if pick.game.slate == slate && player in lines then Some(lines[player]) else None
    case _ => None
  }

  function OrElse<T>(a: Option<T>, b: Option<T>): Option<T>
  {
    if a.Some? then a else b
  }

  lemma {:induction false} LoadedLine(stats: map<SlateId, map<string, Line>>, files: seq<CachedBox>, slate: SlateId,
                                      player: string)
    ensures LineOf(LoadedStats(stats, files), slate, player) ==
            OrElse(LastLine(files, slate, player), LineOf(stats, slate, player))
  {
    if files != [] {
      LoadedLine(stats, files[..|files| - 1], slate, player);
    }
  }

  lemma AnswersKeepStats(m: Memory, section: Section, after: Memory, p: Settings)
    requires section.Boot? || section.Refresh?
    ensures Passes(m, section, after, p) ==> after.feed.view.stats == m.feed.view.stats
  {
    if Passes(m, section, after, p) {
      match section
      case Boot(first, second, answers, at, teams) =>
        BothSlates(first, second);
        BootedView(m.feed, first, second, answers, at, teams, p.norm, m.ledger.finalCached, m.boxError, after.feed);
      case Refresh(s, answer, at, teams) =>
        RefreshedView(m.feed, s, answer, at, teams, p.norm, m.ledger.finalCached, m.boxError, after.feed);
    }
  }

  lemma OthersKeepStats(m: Memory, section: Section, after: Memory, p: Settings)
    requires !section.Load? && !section.BoxScore?
    ensures Passes(m, section, after, p) ==> after.feed.view.stats == m.feed.view.stats
  {
    if section.Boot? || section.Refresh? {
      AnswersKeepStats(m, section, after, p);
    }
  }

  /** The stats once a section is through. */
  function StatsAfter(stats: map<SlateId, map<string, Line>>, section: Section): map<SlateId, map<string, Line>>
  {
    match section
    case Load(files) => LoadedStats(stats, files)
    case BoxScore(pick, lines, _, _, _) => Merged(stats, pick.game.slate, lines)
    case _ => stats
  }

  lemma SectionStats(m: Memory, section: Section, after: Memory, p: Settings)
    ensures Passes(m, section, after, p) ==> after.feed.view.stats == StatsAfter(m.feed.view.stats, section)
  {
    if !section.Load? && !section.BoxScore? {
      OthersKeepStats(m, section, after, p);
    }
  }

  lemma StatsLine(stats: map<SlateId, map<string, Line>>, section: Section, slate: SlateId, player: string)
    ensures LineOf(StatsAfter(stats, section), slate, player) ==
            OrElse(NamedLine(section, slate, player), LineOf(stats, slate, player))
  {
    if section.Load? {
      LoadedLine(stats, section.files, slate, player);
    }
  }

  /** A section changes the lines it names, each to the line named, and no other line. */
  lemma SectionLine(m: Memory, section: Section, after: Memory, p: Settings, slate: SlateId, player: string)
    requires Passes(m, section, after, p)
    ensures LineOf(after.feed.view.stats, slate, player) ==
            OrElse(NamedLine(section, slate, player), LineOf(m.feed.view.stats, slate, player))
  {
    SectionStats(m, section, after, p);
    StatsLine(m.feed.view.stats, section, slate, player);
  }

  /** Every line is the one its latest section named. */
  ghost predicate LinesFollow(memories: seq<Memory>, sections: seq<Section>, slate: SlateId, player: string)
  {
    |memories| == |sections| + 1 &&
    forall k :: 0 <= k < |sections| ==>
      LineOf(memories[k + 1].feed.view.stats, slate, player) ==
      OrElse(NamedLine(sections[k], slate, player), LineOf(memories[k].feed.view.stats, slate, player))
  }

  lemma TraceLines(memories: seq<Memory>, sections: seq<Section>, p: Settings, slate: SlateId, player: string)
    requires Trace(memories, sections, p)
    ensures LinesFollow(memories, sections, slate, player)
  {
    forall k | 0 <= k < |sections|
      ensures LineOf(memories[k + 1].feed.view.stats, slate, player) ==
              OrElse(NamedLine(sections[k], slate, player), LineOf(memories[k].feed.view.stats, slate, player))
    {
      assert PassesAt(memories, sections, p, k);
      SectionLine(memories[k], sections[k], memories[k + 1], p, slate, player);
    }
  }

  lemma {:induction false} LineStays(memories: seq<Memory>, sections: seq<Section>, slate: SlateId, player: string,
                                     i: nat, j: nat)
    requires LinesFollow(memories, sections, slate, player) && i < j < |memories|
    requires NamedLine(sections[i], slate, player).Some?
    requires forall k :: i < k < j ==> NamedLine(sections[k], slate, player) == None
    ensures LineOf(memories[j].feed.view.stats, slate, player) == NamedLine(sections[i], slate, player)
    decreases j
  {
    if i + 1 < j {
      LineStays(memories, sections, slate, player, i, j - 1);
    }
  }

  /** Every snapshot of every run: a player's line under a slate is the one of the latest box score
      or cached file that names the player there. */
  lemma LatestLineShows(memories: seq<Memory>, sections: seq<Section>, p: Settings, slate: SlateId, player: string,
                        i: nat, j: nat)
    requires Trace(memories, sections, p) && i < j < |memories|
    requires NamedLine(sections[i], slate, player).Some?
    requires forall k :: i < k < j ==> NamedLine(sections[k], slate, player) == None
    ensures LineOf(memories[j].feed.view.stats, slate, player) == NamedLine(sections[i], slate, player)
  {
    TraceLines(memories, sections, p, slate, player);
    LineStays(memories, sections, slate, player, i, j);
  }

  // ---------------------------------------------------------------- final scores

  /** The games whose final box score a section brings. */
  function FinalsOf(section: Section): set<string>
  {
    match section
    case Load(files) =>
      set file | file in files && file.final && file.gameId != "" && file.slate != OtherSlate("") :: file.gameId
    case BoxScore(pick, _, final, _, _) => if final then {pick.game.id} else {}
    case _ => {}
  }

  lemma {:induction false} LoadedFinalsAre(files: seq<CachedBox>)
    ensures LoadedFinals(files) == FinalsOf(Load(files))
  {
    if files != [] {
      var n := |files| - 1;
      LoadedFinalsAre(files[..n]);
      assert files == files[..n] + [files[n]];
      assert forall id :: id in FinalsOf(Load(files)) <==>
               id in FinalsOf(Load(files[..n])) || (Usable(files[n]) && files[n].final && id == files[n].gameId);
    }
  }

  lemma FinalsStep(memories: seq<Memory>, sections: seq<Section>, p: Settings, k: nat)
    requires Trace(memories, sections, p) && k < |sections|
    ensures memories[k + 1].ledger.finalCached == memories[k].ledger.finalCached + FinalsOf(sections[k])
  {
    assert PassesAt(memories, sections, p, k);
    if sections[k].Load? {
      LoadedFinalsAre(sections[k].files);
    }
  }

  /** Along every run a game's final score counts as cached exactly if it did at first or a section
      since has brought its final box score. */
  lemma {:induction false} CachedFinalsAre(memories: seq<Memory>, sections: seq<Section>, p: Settings, j: nat,
                                           id: string)
    requires Trace(memories, sections, p) && j < |memories|
    ensures id in memories[j].ledger.finalCached <==>
            id in memories[0].ledger.finalCached || exists k :: 0 <= k < j && id in FinalsOf(sections[k])
  {
    if j > 0 {
      CachedFinalsAre(memories, sections, p, j - 1, id);
      FinalsStep(memories, sections, p, j - 1);
    }
  }

  // ---------------------------------------------------------------- games

  /** The games with those in `ids` marked final. */
  function MarkedBy(games: seq<Game>, ids: set<string>): (r: seq<Game>)
    ensures |r| == |games|
    ensures forall i :: 0 <= i < |r| ==> r[i] == if games[i].id in ids then games[i].(final := true) else games[i]
  {
    seq(|games|, i requires 0 <= i < |games| => if games[i].id in ids then games[i].(final := true) else games[i])
  }

  lemma MarkedAround(before: seq<Game>, g: Game, after: seq<Game>, ids: set<string>)
    ensures multiset(MarkedBy(before + [g] + after, ids)) ==
            multiset(MarkedBy(before + after, ids)) + multiset(MarkedBy([g], ids))
  {
    assert MarkedBy(before + [g] + after, ids) == MarkedBy(before, ids) + MarkedBy([g], ids) + MarkedBy(after, ids);
    assert MarkedBy(before + after, ids) == MarkedBy(before, ids) + MarkedBy(after, ids);
  }

  lemma {:induction false} MarkedSame(a: seq<Game>, b: seq<Game>, ids: set<string>)
    requires multiset(a) == multiset(b)
    ensures multiset(MarkedBy(a, ids)) == multiset(MarkedBy(b, ids))
    decreases |a|
  {
    if a == [] {
      assert |multiset(b)| == 0;
    } else {
      assert a[0] in multiset(a);
      var before, after := Around(a, a[0]);
      var front, back := Around(b, a[0]);
      MarkedAround(before, a[0], after, ids);
      MarkedAround(front, a[0], back, ids);
      MarkedSame(before + after, front + back, ids);
    }
  }

  /** The games a section places for the slate: those of the first week that lists it, without the
      ones that have no kickoff. */
  function PlacedBy(m: Memory, section: Section, slate: SlateId): seq<FeedGame>
  {
    match section
    case Boot(_, _, answers, _, _) => Placed(DecidingProbe(m.feed, answers(slate)))
    case Refresh(s, answer, _, _) => if s == slate then Placed(Deciding(m.feed, slate, answer)) else []
    case _ => []
  }

  /** The game a section finds to be final. */
  function FoundFinal(section: Section): set<string>
  {
    match section
    case BoxScore(pick, _, final, _, _) => if final && !pick.game.final then {pick.game.id} else {}
    case _ => {}
  }

  function FoundFinals(found: seq<set<string>>): set<string>
  {
    if found == [] then {} else FoundFinals(found[..|found| - 1]) + found[|found| - 1]
  }

  lemma HeldFollows(before: seq<Game>, s: SlateId, placed: seq<FeedGame>, after: seq<Game>, slate: SlateId)
    requires GamesFollow(before, s, placed, after)
    ensures multiset(Held(after, slate)) ==
            if s == slate && placed != [] then multiset(AsGames(placed, slate)) else multiset(Held(before, slate))
  {
    if placed != [] {
      ReplacedSlate(before, s, AsGames(placed, s), after, slate);
    }
  }

  lemma ProbedGames(before: Feed, slate: SlateId, answer: string -> Answer, now: int, boxError: bool, after: Feed,
                    held: SlateId)
    requires slate in before.health.slates && Probed(before, slate, answer, now, boxError, after)
    ensures var placed := Placed(DecidingProbe(before, answer));
            after.weeks == before.weeks &&
            multiset(Held(after.view.games, held)) ==
            if held == slate && placed != [] then multiset(AsGames(placed, held))
            else multiset(Held(before.view.games, held))
  {
    ProbedView(before, slate, answer, now, boxError, after);
    HeldFollows(before.view.games, slate, Placed(DecidingProbe(before, answer)), after.view.games, held);
  }

  lemma BootedGames(before: Feed, first: SlateId, second: SlateId, answers: SlateId -> string -> Answer, now: int,
                    teams: set<string>, norm: string -> string, cached: set<string>, boxError: set<SlateId>,
                    after: Feed, slate: SlateId)
    requires first in before.health.slates && second in SLATES && first != second && slate in {first, second}
    ensures Booted(before, first, second, answers, now, teams, norm, cached, boxError, after) ==>
              var placed := Placed(DecidingProbe(before, answers(slate)));
              multiset(Held(after.view.games, slate)) ==
              if placed != [] then multiset(AsGames(placed, slate)) else multiset(Held(before.view.games, slate))
  {
    if Booted(before, first, second, answers, now, teams, norm, cached, boxError, after) {
      var mid: Feed, probed: Feed :|
        mid.health.slates.Keys == probed.health.slates.Keys == SLATES &&
        Probed(before, first, answers(first), now, first in boxError, mid) &&
        Probed(mid, second, answers(second), now, second in boxError, probed) &&
        after == RecountFeed(probed, teams, norm, cached, boxError, now);
      ProbedGames(before, first, answers(first), now, first in boxError, mid, slate);
      ProbedGames(mid, second, answers(second), now, second in boxError, probed, slate);
    }
  }

  lemma MarkedNone(games: seq<Game>)
    ensures MarkedBy(games, {}) == games
  {
  }

  lemma BoxGames(games: seq<Game>, pick: Pick, final: bool, slate: SlateId)
    ensures Held(MarkedGames(games, pick, final), slate) ==
            MarkedBy(Held(games, slate), if final && !pick.game.final then {pick.game.id} else {})
  {
    MarkedNone(Held(games, slate));
    HeldAfterMark(games, pick.game.id, slate);
  }

  lemma RefreshGames(m: Memory, s: SlateId, answer: string -> Answer, at: int, teams: set<string>, after: Memory,
                     p: Settings, slate: SlateId)
    ensures Passes(m, Refresh(s, answer, at, teams), after, p) ==>
              var placed := Placed(Deciding(m.feed, s, answer));
              multiset(Held(after.feed.view.games, slate)) ==
              if s == slate && placed != [] then multiset(AsGames(placed, slate))
              else multiset(Held(m.feed.view.games, slate))
  {
    if Passes(m, Refresh(s, answer, at, teams), after, p) {
      RefreshedView(m.feed, s, answer, at, teams, p.norm, m.ledger.finalCached, m.boxError, after.feed);
      HeldFollows(m.feed.view.games, s, Placed(Deciding(m.feed, s, answer)), after.feed.view.games, slate);
    }
  }

  lemma BootGames(m: Memory, section: Section, after: Memory, p: Settings, slate: SlateId)
    requires section.Boot? && Passes(m, section, after, p) && slate in SLATES
    ensures var placed := Placed(DecidingProbe(m.feed, section.answers(slate)));
            multiset(Held(after.feed.view.games, slate)) ==
            if placed != [] then multiset(AsGames(placed, slate)) else multiset(Held(m.feed.view.games, slate))
  {
    BothSlates(section.first, section.second);
    assert Booted(m.feed, section.first, section.second, section.answers, section.at, section.teams, p.norm,
                  m.ledger.finalCached, m.boxError, after.feed);
    BootedGames(m.feed, section.first, section.second, section.answers, section.at, section.teams, p.norm,
                m.ledger.finalCached, m.boxError, after.feed, slate);
  }

  /** What a section does to the games of a slate. */
  lemma SectionGames(m: Memory, section: Section, after: Memory, p: Settings, slate: SlateId)
    requires Passes(m, section, after, p) && slate in SLATES
    ensures var placed := PlacedBy(m, section, slate);
            multiset(Held(after.feed.view.games, slate)) ==
            if placed != [] then multiset(AsGames(placed, slate))
            else multiset(MarkedBy(Held(m.feed.view.games, slate), FoundFinal(section)))
  {
    MarkedNone(Held(m.feed.view.games, slate));
    match section
    case Boot(_, _, _, _, _) => BootGames(m, section, after, p, slate);
    case Refresh(s, answer, at, teams) => RefreshGames(m, s, answer, at, teams, after, p, slate);
    case BoxScore(pick, _, final, _, _) => BoxGames(m.feed.view.games, pick, final, slate);
    case _ =>
  }

  lemma MarkedTwice(games: seq<Game>, a: set<string>, b: set<string>)
    ensures MarkedBy(MarkedBy(games, a), b) == MarkedBy(games, a + b)
  {
  }

  /** A slate's games, each time those just placed, or else the earlier ones with new finals marked. */
  ghost predicate GamesAlong(held: seq<seq<Game>>, placed: seq<seq<FeedGame>>, found: seq<set<string>>, slate: SlateId)
  {
    |held| == |placed| + 1 == |found| + 1 &&
    forall k :: 0 <= k < |placed| ==>
      multiset(held[k + 1]) ==
      if placed[k] != [] then multiset(AsGames(placed[k], slate)) else multiset(MarkedBy(held[k], found[k]))
  }

  function HeldIn(memories: seq<Memory>, slate: SlateId): (held: seq<seq<Game>>)
    ensures |held| == |memories|
  {
    seq(|memories|, k requires 0 <= k < |memories| => Held(memories[k].feed.view.games, slate))
  }

  function PlacedIn(memories: seq<Memory>, sections: seq<Section>, slate: SlateId): (placed: seq<seq<FeedGame>>)
    requires |memories| == |sections| + 1
    ensures |placed| == |sections|
  {
    seq(|sections|, k requires 0 <= k < |sections| => PlacedBy(memories[k], sections[k], slate))
  }

  function FoundIn(sections: seq<Section>): (found: seq<set<string>>)
    ensures |found| == |sections|
  {
    seq(|sections|, k requires 0 <= k < |sections| => FoundFinal(sections[k]))
  }

  lemma TraceGames(memories: seq<Memory>, sections: seq<Section>, p: Settings, slate: SlateId)
    requires Trace(memories, sections, p) && slate in SLATES
    ensures GamesAlong(HeldIn(memories, slate), PlacedIn(memories, sections, slate), FoundIn(sections), slate)
  {
    forall k | 0 <= k < |sections|
      ensures multiset(Held(memories[k + 1].feed.view.games, slate)) ==
              var placed := PlacedBy(memories[k], sections[k], slate);
              if placed != [] then multiset(AsGames(placed, slate))
              else multiset(MarkedBy(Held(memories[k].feed.view.games, slate), FoundFinal(sections[k])))
    {
      assert PassesAt(memories, sections, p, k);
      SectionGames(memories[k], sections[k], memories[k + 1], p, slate);
    }
  }

  lemma FoundNext(found: seq<set<string>>, i: nat, j: nat)
    requires i <= j < |found|
    ensures FoundFinals(found[i..j + 1]) == FoundFinals(found[i..j]) + found[j]
  {
    assert found[i..j + 1][..j - i] == found[i..j];
  }

  lemma MarkedOn(placed: seq<Game>, found: set<string>, held: seq<Game>, next: set<string>)
    requires multiset(held) == multiset(MarkedBy(placed, found))
    ensures multiset(MarkedBy(held, next)) == multiset(MarkedBy(placed, found + next))
  {
    MarkedSame(held, MarkedBy(placed, found), next);
    MarkedTwice(placed, found, next);
  }

  lemma {:induction false} MarksAdd(held: seq<seq<Game>>, placed: seq<seq<FeedGame>>, found: seq<set<string>>,
                                    slate: SlateId, games: seq<Game>, i: nat, j: nat)
    requires GamesAlong(held, placed, found, slate) && i <= j < |held| && multiset(held[i]) == multiset(games)
    requires forall k :: i <= k < j ==> placed[k] == []
    ensures multiset(held[j]) == multiset(MarkedBy(games, FoundFinals(found[i..j])))
    decreases j
  {
    if i == j {
      MarkedNone(games);
    } else {
      MarksAdd(held, placed, found, slate, games, i, j - 1);
      MarkedOn(games, FoundFinals(found[i..j - 1]), held[j - 1], found[j - 1]);
      FoundNext(found, i, j - 1);
    }
  }

  lemma ListingShows(held: seq<seq<Game>>, placed: seq<seq<FeedGame>>, found: seq<set<string>>, slate: SlateId, i: nat,
                     j: nat)
    requires GamesAlong(held, placed, found, slate) && i < j < |held|
    requires placed[i] != [] && forall k :: i < k < j ==> placed[k] == []
    ensures multiset(held[j]) == multiset(MarkedBy(AsGames(placed[i], slate), FoundFinals(found[i + 1..j])))
  {
    MarksAdd(held, placed, found, slate, AsGames(placed[i], slate), i + 1, j);
  }

  /** Every snapshot of every run: a slate shows exactly the games that its latest listing placed,
      those final that the listing or a later box score found to be. */
  lemma LatestListingShows(memories: seq<Memory>, sections: seq<Section>, p: Settings, slate: SlateId,
                           held: seq<seq<Game>>, placed: seq<seq<FeedGame>>, found: seq<set<string>>, i: nat, j: nat)
    requires Trace(memories, sections, p) && slate in SLATES && held == HeldIn(memories, slate)
    requires placed == PlacedIn(memories, sections, slate) && found == FoundIn(sections)
    requires i < j < |held| && placed[i] != [] && forall k :: i < k < j ==> placed[k] == []
    ensures multiset(held[j]) == multiset(MarkedBy(AsGames(placed[i], slate), FoundFinals(found[i + 1..j])))
  {
    TraceGames(memories, sections, p, slate);
    ListingShows(held, placed, found, slate, i, j);
  }

  // ---------------------------------------------------------------- pending failures

  /** What a section says about the slate's box scores, if anything: that they fail, or that they do not. */
  function BoxFlag(section: Section, slate: SlateId): Option<bool>
  {
    match section
    case Failure(s, _, _, _) => if s == slate then Some(true) else None
    case BoxScore(pick, _, _, _, _) => if pick.game.slate == slate then Some(false) else None
    case _ => None
  }

  /** Whether a probe fails a slate: it lists games without a kickoff, or lists none and some request
      was refused. */
  predicate ProbeFails(f: Feed, answer: string -> Answer)
  {
    var listed := DecidingProbe(f, answer);
    if listed == [] then exists week :: week in f.weeks && answer(week).Refused?
    else exists g :: g in listed && g.kickoff == 0
  }

  /** What a section says about the slate's schedule. */
  function ScheduleFlag(m: Memory, section: Section, slate: SlateId): Option<bool>
  {
    match section
    case Boot(_, _, answers, _, _) => Some(ProbeFails(m.feed, answers(slate)))
    case Refresh(s, answer, _, _) =>
      if s != slate then None
      else if slate !in m.feed.weekParam then Some(ProbeFails(m.feed, answer))
      else
        Some(answer(m.feed.weekParam[slate]).Refused? ||
             exists g :: g in Deciding(m.feed, slate, answer) && g.kickoff == 0)
    case _ => None
  }

  predicate Flag(said: Option<bool>, before: bool)
  {
    if said.Some? then said.value else before
  }

  lemma ResolvedFlag(before: Feed, slate: SlateId, results: map<string, seq<FeedGame>>, now: int, failed: bool,
                     boxError: bool, after: Feed, s: SlateId)
    requires slate in before.health.slates && Resolved(before, slate, results, now, failed, boxError, after)
    ensures var listed := FirstListed(results, before.weeks);
            s in after.scheduleError <==>
            if s != slate then s in before.scheduleError
            else if listed == [] then failed
            else exists g :: g in listed && g.kickoff == 0
    ensures after.weeks == before.weeks
    ensures var week := FirstListing(results, before.weeks);
            after.weekParam == if week.Some? then before.weekParam[slate := week.value] else before.weekParam
  {
    PlacedGames(FirstListed(results, before.weeks));
  }

  lemma ProbedFlag(before: Feed, slate: SlateId, answer: string -> Answer, now: int, boxError: bool, after: Feed,
                   s: SlateId)
    requires slate in before.health.slates && Probed(before, slate, answer, now, boxError, after)
    ensures s in after.scheduleError <==> if s == slate then ProbeFails(before, answer) else s in before.scheduleError
    ensures after.weeks == before.weeks && after.weekParam == FoundBy(before, slate, answer)
  {
    ResolvedFlag(before, slate, Listings(answer, before.weeks), now, AnyRefused(answer, before.weeks), boxError, after,
                 s);
    assert AnyRefused(answer, before.weeks) <==> exists week :: week in before.weeks && answer(week).Refused? by {
      if week :| week in before.weeks && answer(week).Refused? {
        var i :| 0 <= i < |before.weeks| && before.weeks[i] == week;
      }
    }
  }

  /** The week of each slate after a probe: the first one that lists it, if any. */
  function FoundBy(f: Feed, slate: SlateId, answer: string -> Answer): map<SlateId, string>
  {
    var week := FirstListing(Listings(answer, f.weeks), f.weeks);
    if week.Some? then f.weekParam[slate := week.value] else f.weekParam
  }

  lemma AnsweredFlag(before: Feed, slate: SlateId, answer: string -> Answer, now: int, boxError: bool, after: Feed,
                     s: SlateId)
    requires slate in before.health.slates && Answered(before, slate, answer, now, boxError, after)
    ensures s in after.scheduleError <==>
            if s != slate then s in before.scheduleError
            else if slate !in before.weekParam then ProbeFails(before, answer)
            else answer(before.weekParam[slate]).Refused? ||
                 exists g :: g in Deciding(before, slate, answer) && g.kickoff == 0
    ensures after.weeks == before.weeks
    ensures after.weekParam == if slate in before.weekParam then before.weekParam else FoundBy(before, slate, answer)
  {
    if slate !in before.weekParam {
      ProbedFlag(before, slate, answer, now, boxError, after, s);
    } else if answer(before.weekParam[slate]).Listing? {
      var week, candidates := before.weekParam[slate], answer(before.weekParam[slate]).candidates;
      var cleared := before.(scheduleError := before.scheduleError - {slate});
      ResolvedFlag(cleared, slate, map[week := candidates], now, false, boxError, after, s);
      OnlyListing(week, candidates, before.weeks);
      assert before.weekParam[slate := week] == before.weekParam;
    }
  }

  lemma RefreshedFlag(before: Feed, slate: SlateId, answer: string -> Answer, now: int, teams: set<string>,
                      norm: string -> string, cached: set<string>, boxError: set<SlateId>, after: Feed, s: SlateId)
    requires slate in before.health.slates
    ensures Refreshed(before, slate, answer, now, teams, norm, cached, boxError, after) ==>
              && (s in after.scheduleError <==>
                    if s != slate then s in before.scheduleError
                    else if slate !in before.weekParam then ProbeFails(before, answer)
                    else answer(before.weekParam[slate]).Refused? ||
                         exists g :: g in Deciding(before, slate, answer) && g.kickoff == 0)
              && after.weeks == before.weeks
              && after.weekParam ==
                 if slate in before.weekParam then before.weekParam else FoundBy(before, slate, answer)
  {
    if Refreshed(before, slate, answer, now, teams, norm, cached, boxError, after) {
      var mid: Feed :|
        Answered(before, slate, answer, now, slate in boxError, mid) && mid.health.slates.Keys == SLATES &&
        after == RecountFeed(mid, teams, norm, cached, boxError, now);
      AnsweredFlag(before, slate, answer, now, slate in boxError, mid, s);
    }
  }

  lemma ProbedSays(before: Feed, slate: SlateId, answer: string -> Answer, now: int, boxError: bool, after: Feed,
                   s: SlateId)
    requires slate in before.health.slates && Probed(before, slate, answer, now, boxError, after)
    ensures s in after.scheduleError <==> if s == slate then ProbeFails(before, answer) else s in before.scheduleError
    ensures after.weeks == before.weeks
  {
    ProbedFlag(before, slate, answer, now, boxError, after, s);
  }

  lemma ProbedBoth(before: Feed, first: SlateId, second: SlateId, answers: SlateId -> string -> Answer, now: int,
                   boxError: set<SlateId>, mid: Feed, after: Feed, s: SlateId)
    requires first in before.health.slates && second in mid.health.slates && first != second && s in {first, second}
    requires Probed(before, first, answers(first), now, first in boxError, mid)
    requires Probed(mid, second, answers(second), now, second in boxError, after)
    ensures (s in after.scheduleError <==> ProbeFails(before, answers(s))) && after.weeks == before.weeks
  {
    ProbedSays(before, first, answers(first), now, first in boxError, mid, s);
    ProbedSays(mid, second, answers(second), now, second in boxError, after, s);
  }

  lemma BootedFlag(before: Feed, first: SlateId, second: SlateId, answers: SlateId -> string -> Answer, now: int,
                   teams: set<string>, norm: string -> string, cached: set<string>, boxError: set<SlateId>,
                   after: Feed, s: SlateId)
    requires first in before.health.slates && second in SLATES && first != second && s in {first, second}
    ensures Booted(before, first, second, answers, now, teams, norm, cached, boxError, after) ==>
              (s in after.scheduleError <==> ProbeFails(before, answers(s))) && after.weeks == before.weeks
  {
    if Booted(before, first, second, answers, now, teams, norm, cached, boxError, after) {
      var mid: Feed, probed: Feed :|
        mid.health.slates.Keys == probed.health.slates.Keys == SLATES &&
        Probed(before, first, answers(first), now, first in boxError, mid) &&
        Probed(mid, second, answers(second), now, second in boxError, probed) &&
        after == RecountFeed(probed, teams, norm, cached, boxError, now);
      ProbedBoth(before, first, second, answers, now, boxError, mid, probed, s);
    }
  }

  lemma RefreshFlag(m: Memory, section: Section, after: Memory, p: Settings, slate: SlateId)
    requires section.Refresh?
    ensures Passes(m, section, after, p) ==>
              (slate in after.feed.scheduleError <==>
                 Flag(ScheduleFlag(m, section, slate), slate in m.feed.scheduleError))
  {
    if Passes(m, section, after, p) {
      RefreshedFlag(m.feed, section.slate, section.answer, section.at, section.teams, p.norm, m.ledger.finalCached,
                    m.boxError, after.feed, slate);
    }
  }

  lemma BootFlag(m: Memory, section: Section, after: Memory, p: Settings, slate: SlateId)
    requires section.Boot? && slate in SLATES
    ensures Passes(m, section, after, p) ==>
              (slate in after.feed.scheduleError <==>
                 Flag(ScheduleFlag(m, section, slate), slate in m.feed.scheduleError))
  {
    if Passes(m, section, after, p) {
      BothSlates(section.first, section.second);
      BootedFlag(m.feed, section.first, section.second, section.answers, section.at, section.teams, p.norm,
                 m.ledger.finalCached, m.boxError, after.feed, slate);
    }
  }

  lemma SectionFlags(m: Memory, section: Section, after: Memory, p: Settings, slate: SlateId)
    requires Passes(m, section, after, p) && slate in SLATES
    ensures slate in after.boxError <==> Flag(BoxFlag(section, slate), slate in m.boxError)
    ensures slate in after.feed.scheduleError <==>
            Flag(ScheduleFlag(m, section, slate), slate in m.feed.scheduleError)
  {
    if section.Boot? {
      BootFlag(m, section, after, p, slate);
    } else if section.Refresh? {
      RefreshFlag(m, section, after, p, slate);
    }
  }

  /** A flag over a run: each step may say what it is, and leaves it alone otherwise. */
  predicate FlagsFollow(flags: seq<bool>, said: seq<Option<bool>>)
  {
    |flags| == |said| + 1 && forall k :: 0 <= k < |said| ==> flags[k + 1] == Flag(said[k], flags[k])
  }

  lemma {:induction false} FlagIsLatest(flags: seq<bool>, said: seq<Option<bool>>, i: nat, j: nat)
    requires FlagsFollow(flags, said) && i < j < |flags| && said[i].Some?
    requires forall k :: i < k < j ==> said[k] == None
    ensures flags[j] == said[i].value
    decreases j
  {
    if i + 1 < j {
      FlagIsLatest(flags, said, i, j - 1);
    }
  }

  function BoxFlags(memories: seq<Memory>, slate: SlateId): seq<bool>
  {
    seq(|memories|, k requires 0 <= k < |memories| => slate in memories[k].boxError)
  }

  function SaidOfBoxes(sections: seq<Section>, slate: SlateId): seq<Option<bool>>
  {
    seq(|sections|, k requires 0 <= k < |sections| => BoxFlag(sections[k], slate))
  }

  function ScheduleFlags(memories: seq<Memory>, slate: SlateId): seq<bool>
  {
    seq(|memories|, k requires 0 <= k < |memories| => slate in memories[k].feed.scheduleError)
  }

  function SaidOfSchedules(memories: seq<Memory>, sections: seq<Section>, slate: SlateId): seq<Option<bool>>
    requires |memories| == |sections| + 1
  {
    seq(|sections|, k requires 0 <= k < |sections| => ScheduleFlag(memories[k], sections[k], slate))
  }

  /** Along every run a slate counts as failing exactly as the latest section that says something
      about its box scores, or about its schedule, has said. */
  lemma FlagsAreLatest(memories: seq<Memory>, sections: seq<Section>, p: Settings, slate: SlateId)
    requires Trace(memories, sections, p) && slate in SLATES
    ensures FlagsFollow(BoxFlags(memories, slate), SaidOfBoxes(sections, slate))
    ensures FlagsFollow(ScheduleFlags(memories, slate), SaidOfSchedules(memories, sections, slate))
  {
    forall k | 0 <= k < |sections|
      ensures slate in memories[k + 1].boxError <==> Flag(BoxFlag(sections[k], slate), slate in memories[k].boxError)
      ensures slate in memories[k + 1].feed.scheduleError <==>
              Flag(ScheduleFlag(memories[k], sections[k], slate), slate in memories[k].feed.scheduleError)
    {
      assert PassesAt(memories, sections, p, k);
      SectionFlags(memories[k], sections[k], memories[k + 1], p, slate);
    }
  }

  /** So no snapshot of a new process reports Ready from a failed box score of a slate to its next
      good one, nor from a failed schedule answer to the slate's next answer. */
  lemma NotReadyWhileFailing(memories: seq<Memory>, sections: seq<Section>, p: Settings, slate: SlateId, i: nat, j: nat)
    requires Trace(memories, sections, p) && memories[0] == NewMemory() && slate in SLATES && i < j < |memories|
    requires
      var boxes, schedules := SaidOfBoxes(sections, slate), SaidOfSchedules(memories, sections, slate);
      || (boxes[i] == Some(true) && forall k :: i < k < j ==> boxes[k] == None)
      || (schedules[i] == Some(true) && forall k :: i < k < j ==> schedules[k] == None)
    ensures memories[j].feed.health.state != Ready
  {
    FlagsAreLatest(memories, sections, p, slate);
    EverySnapshotIsSound(memories, sections, p, j);
    var boxes, schedules := SaidOfBoxes(sections, slate), SaidOfSchedules(memories, sections, slate);
    if boxes[i] == Some(true) && forall k :: i < k < j ==> boxes[k] == None {
      FlagIsLatest(BoxFlags(memories, slate), boxes, i, j);
      assert BoxFlags(memories, slate)[j];
    } else {
      FlagIsLatest(ScheduleFlags(memories, slate), schedules, i, j);
      assert ScheduleFlags(memories, slate)[j];
    }
  }

  /** What every snapshot of a new process shows: games of the two slates alone, all with a kickoff and
      in its order; and when it reports Ready, every listed game is there, no failure is pending, and
      no final score that an entered team's players need is missing from a final slate. */
  lemma EverySnapshotShows(memories: seq<Memory>, sections: seq<Section>, p: Settings, j: nat)
    requires Trace(memories, sections, p) && memories[0] == NewMemory() && j < |memories|
    ensures var games := memories[j].feed.view.games;
            && (forall a, b :: 0 <= a < b < |games| ==> games[a].kickoff <= games[b].kickoff)
            && (forall g :: g in games ==> g.slate in {Pre2, Pre3} && g.kickoff != 0)
    ensures var m, teams := memories[j], TeamsAlong({}, sections[..j]);
            m.feed.health.state == Ready ==>
              forall slate :: slate in {Pre2, Pre3} ==>
                && slate !in m.feed.scheduleError && slate !in m.boxError && slate in m.feed.health.slates
                && m.feed.health.slates[slate].complete
                && m.feed.health.slates[slate].expected == |Held(m.feed.view.games, slate)|
                && (m.feed.health.slates[slate].final ==>
                      forall g :: g in m.feed.view.games && g.slate == slate && g.final ==>
                        g.id in m.ledger.finalCached || (p.norm(g.away) !in teams && p.norm(g.home) !in teams))
  {
    EverySnapshotIsSound(memories, sections, p, j);
  }

  // ---------------------------------------------------------------- what heals a slate

  lemma RecountJudges(f: Feed, teams: set<string>, norm: string -> string, cached: set<string>, boxError: set<SlateId>,
                      now: int, slate: SlateId)
    requires f.health.slates.Keys == SLATES && slate in SLATES
    ensures var after := RecountFeed(f, teams, norm, cached, boxError, now).health;
            slate in after.slates &&
            after.slates[slate] == JudgedAs(f.health.slates[slate], f.view.games, slate, teams, norm, cached,
                                            slate in f.scheduleError, slate in boxError)
  {
  }

  /** A failed box score shows at once, under the error of the provider, and takes back nothing that
      was fetched. */
  lemma FailureShows(m: Memory, slate: SlateId, error: string, at: int, teams: set<string>, p: Settings)
    requires PendingFeed(m.feed) && slate in SLATES
    ensures var before, after := m.feed.health.slates[slate], Failed(m, slate, error, at, teams, p.norm);
            slate in after.feed.health.slates &&
            var st := after.feed.health.slates[slate];
            && st.state == Degraded && st.error == Provider(error) && st.lastAttempt == at
            && st.lastSuccess == before.lastSuccess && st.fetched == before.fetched && st.complete == before.complete
            && after.feed.view.games == m.feed.view.games && after.feed.view.stats == m.feed.view.stats
  {
    var st := AfterFailure(m.feed.health.slates[slate], at, error);
    RecountJudges(m.feed.(health := WithSlate(m.feed.health, slate, st)), teams, p.norm, m.ledger.finalCached,
                  m.boxError + {slate}, at, slate);
  }

  /** So does a refused request for a slate whose week is known. */
  lemma RefusalShows(m: Memory, slate: SlateId, answer: string -> Answer, at: int, teams: set<string>, after: Memory,
                     p: Settings)
    requires Passes(m, Refresh(slate, answer, at, teams), after, p)
    requires slate in m.feed.weekParam && answer(m.feed.weekParam[slate]).Refused?
    ensures after.feed.view == m.feed.view && slate in after.feed.health.slates
    ensures var before, st := m.feed.health.slates[slate], after.feed.health.slates[slate];
            && st.state == Degraded && st.error == Provider(answer(m.feed.weekParam[slate]).error)
            && st.lastAttempt == at && st.lastSuccess == before.lastSuccess && st.fetched == before.fetched
            && st.complete == before.complete
  {
    var mid: Feed :|
      Answered(m.feed, slate, answer, at, slate in m.boxError, mid) && mid.health.slates.Keys == SLATES &&
      after.feed == RecountFeed(mid, teams, p.norm, m.ledger.finalCached, m.boxError, at);
    RecountJudges(mid, teams, p.norm, m.ledger.finalCached, m.boxError, at, slate);
  }

  lemma BoxJudged(st: SlateHealth, held: seq<Game>, at: int, expectedScoring: nat, fetchedScoring: nat)
    requires st.complete && st.state in {Ready, Degraded}
    ensures var after := Judged(AfterBox(st, held, at, false), expectedScoring, fetchedScoring, false, false);
            && (after.final && !after.scoringComplete ==> after.state == Degraded && after.error == MissingFinals)
            && (!(after.final && !after.scoringComplete) ==> after.state == Ready && after.error == NoNote)
            && after.lastAttempt == after.lastSuccess == at
  {
  }

  /** A good box score leaves a slate whose schedule is whole and sound Ready, whatever failed before;
      only final scores that are still missing can keep it degraded, and then its note says so. */
  lemma GoodBoxHeals(m: Memory, pick: Pick, lines: map<string, Line>, final: bool, at: int, teams: set<string>,
                     p: Settings)
    requires PendingFeed(m.feed) && pick.game.slate in SLATES && pick.game.slate !in m.feed.scheduleError
    requires m.feed.health.slates[pick.game.slate].complete && m.feed.health.slates[pick.game.slate].state != Loading
    ensures var after := Boxed(m, pick, lines, final, at, teams, p.norm).feed.health;
            pick.game.slate in after.slates &&
            var st := after.slates[pick.game.slate];
            && (st.final && !st.scoringComplete ==> st.state == Degraded && st.error == MissingFinals)
            && (!(st.final && !st.scoringComplete) ==> st.state == Ready && st.error == NoNote)
            && st.lastAttempt == st.lastSuccess == at
  {
    var slate, ledger := pick.game.slate, FinalNoted(m.ledger, pick, final, at);
    var merged := MergedFeed(m.feed, pick, lines, final, at);
    var needed := Needed(merged.view.games, slate, teams, p.norm);
    RecountJudges(merged, teams, p.norm, ledger.finalCached, m.boxError - {slate}, at, slate);
    BoxJudged(m.feed.health.slates[slate], Held(merged.view.games, slate), at, |needed|,
              CachedOf(needed, ledger.finalCached));
  }

  // ---------------------------------------------------------------- when a slate is asked for

  /** The instant at which a section asks for the slate's schedule. */
  function AsksAt(section: Section, slate: SlateId): Option<int>
  {
    match section
    case Boot(_, _, _, at, _) => Some(at)
    case Refresh(s, _, at, _) => if s == slate then Some(at) else None
    case _ => None
  }

  lemma LastAsked(memories: seq<Memory>, sections: seq<Section>, p: Settings, slate: SlateId, k: nat)
    requires Trace(memories, sections, p) && slate in SLATES && k < |sections|
    ensures var asked := AsksAt(sections[k], slate);
            LastSchedule(memories[k + 1].lastSchedule, slate) ==
            if asked.Some? then asked.value else LastSchedule(memories[k].lastSchedule, slate)
    ensures sections[k].Refresh? && sections[k].slate == slate ==>
              sections[k].at - LastSchedule(memories[k].lastSchedule, slate) >= 24 * HOUR
  {
    assert PassesAt(memories, sections, p, k);
    if sections[k].Boot? {
      BothSlates(sections[k].first, sections[k].second);
      assert slate in {sections[k].first, sections[k].second};
    }
  }

  /** Along every run a slate is refreshed no sooner than a day after it was last asked for. */
  lemma RefreshesAreADayApart(memories: seq<Memory>, sections: seq<Section>, p: Settings, slate: SlateId, i: nat,
                              j: nat)
    requires Trace(memories, sections, p) && slate in SLATES && i < j < |sections|
    requires AsksAt(sections[i], slate).Some? && sections[j].Refresh? && sections[j].slate == slate
    requires forall k :: i < k < j ==> AsksAt(sections[k], slate) == None
    ensures sections[j].at - AsksAt(sections[i], slate).value >= 24 * HOUR
  {
    TraceAsked(memories, sections, p, slate);
    LastAskedStays(memories, sections, slate, i, j);
    LastAsked(memories, sections, p, slate, j);
  }

  /** Every slate's instant is that of the latest section that asked for it. */
  ghost predicate AskedFollow(memories: seq<Memory>, sections: seq<Section>, slate: SlateId)
  {
    |memories| == |sections| + 1 &&
    forall k :: 0 <= k < |sections| ==>
      LastSchedule(memories[k + 1].lastSchedule, slate) ==
      var asked := AsksAt(sections[k], slate);
      if asked.Some? then asked.value else LastSchedule(memories[k].lastSchedule, slate)
  }

  lemma TraceAsked(memories: seq<Memory>, sections: seq<Section>, p: Settings, slate: SlateId)
    requires Trace(memories, sections, p) && slate in SLATES
    ensures AskedFollow(memories, sections, slate)
  {
    forall k | 0 <= k < |sections|
      ensures LastSchedule(memories[k + 1].lastSchedule, slate) ==
              var asked := AsksAt(sections[k], slate);
              if asked.Some? then asked.value else LastSchedule(memories[k].lastSchedule, slate)
    {
      LastAsked(memories, sections, p, slate, k);
    }
  }

  lemma {:induction false} LastAskedStays(memories: seq<Memory>, sections: seq<Section>, slate: SlateId, i: nat, j: nat)
    requires AskedFollow(memories, sections, slate) && i < j < |memories|
    requires AsksAt(sections[i], slate).Some? && forall k :: i < k < j ==> AsksAt(sections[k], slate) == None
    ensures LastSchedule(memories[j].lastSchedule, slate) == AsksAt(sections[i], slate).value
    decreases j
  {
    if i + 1 < j {
      LastAskedStays(memories, sections, slate, i, j - 1);
    }
  }

  /** And a tick refreshes a slate as soon as that day is over. */
  lemma DueSlateIsRefreshed(lastSchedule: map<SlateId, int>, t: TickInput, slate: SlateId)
    requires slate in {t.first, t.second} && t.now - LastSchedule(lastSchedule, slate) >= 24 * HOUR
    ensures Refresh(slate, t.answers(slate), t.now, t.teamsAtRefresh) in RefreshSections(lastSchedule, t)
  {
    var refresh := Refresh(slate, t.answers(slate), t.now, t.teamsAtRefresh);
    assert refresh in Refreshing(lastSchedule, slate, t.answers(slate), t.now, t.teamsAtRefresh);
  }

  // ---------------------------------------------------------------- the week of a slate

  lemma WeekStep(memories: seq<Memory>, sections: seq<Section>, p: Settings, slate: SlateId, k: nat)
    requires Trace(memories, sections, p) && k < |sections| && !sections[k].Boot?
    ensures var before, after := memories[k].feed, memories[k + 1].feed;
            && after.weeks == before.weeks
            && (slate in before.weekParam ==>
                  slate in after.weekParam && after.weekParam[slate] == before.weekParam[slate])
  {
    var m, section, after := memories[k], sections[k], memories[k + 1];
    assert PassesAt(memories, sections, p, k);
    if section.Refresh? {
      RefreshedFlag(m.feed, section.slate, section.answer, section.at, section.teams, p.norm, m.ledger.finalCached,
                    m.boxError, after.feed, slate);
    }
  }

  lemma {:induction false} WeekIsKept(memories: seq<Memory>, sections: seq<Section>, p: Settings, slate: SlateId,
                                      i: nat, j: nat)
    requires Trace(memories, sections, p) && i <= j < |memories| && slate in memories[i].feed.weekParam
    requires forall k :: i <= k < j ==> !sections[k].Boot?
    ensures slate in memories[j].feed.weekParam
    ensures memories[j].feed.weekParam[slate] == memories[i].feed.weekParam[slate]
    decreases j
  {
    if i < j {
      WeekIsKept(memories, sections, p, slate, i, j - 1);
      WeekStep(memories, sections, p, slate, j - 1);
    }
  }

  lemma ProbedWeek(before: Feed, slate: SlateId, answer: string -> Answer, now: int, boxError: bool, after: Feed,
                   s: SlateId, week: string)
    requires slate in before.health.slates && Probed(before, slate, answer, now, boxError, after)
    requires if s == slate then FirstListing(Listings(answer, before.weeks), before.weeks) == Some(week)
             else s in before.weekParam && before.weekParam[s] == week
    ensures s in after.weekParam && after.weekParam[s] == week
  {
    ProbedFlag(before, slate, answer, now, boxError, after, s);
  }

  lemma BootedWeek(before: Feed, first: SlateId, second: SlateId, answers: SlateId -> string -> Answer, now: int,
                   teams: set<string>, norm: string -> string, cached: set<string>, boxError: set<SlateId>,
                   after: Feed, s: SlateId, week: string)
    requires first in before.health.slates && second in SLATES && first != second && s in {first, second}
    requires FirstListing(Listings(answers(s), before.weeks), before.weeks) == Some(week)
    ensures Booted(before, first, second, answers, now, teams, norm, cached, boxError, after) ==>
              s in after.weekParam && after.weekParam[s] == week
  {
    if Booted(before, first, second, answers, now, teams, norm, cached, boxError, after) {
      var mid: Feed, probed: Feed :|
        mid.health.slates.Keys == probed.health.slates.Keys == SLATES &&
        Probed(before, first, answers(first), now, first in boxError, mid) &&
        Probed(mid, second, answers(second), now, second in boxError, probed) &&
        after == RecountFeed(probed, teams, norm, cached, boxError, now);
      if s == first {
        ProbedWeek(before, first, answers(first), now, first in boxError, mid, s, week);
      } else {
        ProbedFlag(before, first, answers(first), now, first in boxError, mid, s);
      }
      ProbedWeek(mid, second, answers(second), now, second in boxError, probed, s, week);
    }
  }

  /** The week that a section's probe of the slate finds: the first one, in the order asked, whose
      answer lists games. */
  predicate Finds(m: Memory, section: Section, slate: SlateId, n: nat)
  {
    var answer := match section
                  case Boot(_, _, answers, _, _) => Some(answers(slate))
                  case Refresh(s, answer, _, _) =>
                    if s == slate && slate !in m.feed.weekParam then Some(answer) else None
                  case _ => None;
    answer.Some? && n < |m.feed.weeks| && ListsGames(answer.value(m.feed.weeks[n])) &&
    forall k :: 0 <= k < n ==> !ListsGames(answer.value(m.feed.weeks[k]))
  }

  lemma FoundWeek(m: Memory, section: Section, after: Memory, p: Settings, slate: SlateId, n: nat)
    requires Passes(m, section, after, p) && slate in SLATES && Finds(m, section, slate, n)
    ensures slate in after.feed.weekParam && after.feed.weekParam[slate] == m.feed.weeks[n]
  {
    if section.Boot? {
      ProbeDecides(m.feed, section.answers(slate), n);
      BothSlates(section.first, section.second);
      BootedWeek(m.feed, section.first, section.second, section.answers, section.at, section.teams, p.norm,
                 m.ledger.finalCached, m.boxError, after.feed, slate, m.feed.weeks[n]);
    } else {
      ProbeDecides(m.feed, section.answer, n);
      RefreshedFlag(m.feed, slate, section.answer, section.at, section.teams, p.norm, m.ledger.finalCached, m.boxError,
                    after.feed, slate);
    }
  }

  lemma FoundAt(memories: seq<Memory>, sections: seq<Section>, p: Settings, slate: SlateId, n: nat, i: nat)
    requires Trace(memories, sections, p) && slate in SLATES && i < |sections|
    requires Finds(memories[i], sections[i], slate, n)
    ensures slate in memories[i + 1].feed.weekParam
    ensures memories[i + 1].feed.weekParam[slate] == memories[i].feed.weeks[n]
  {
    assert PassesAt(memories, sections, p, i);
    FoundWeek(memories[i], sections[i], memories[i + 1], p, slate, n);
  }

  /** Once a probe has found a slate in a week, it is that week which every later refresh asks for,
      until the next boot. */
  lemma FoundWeekIsAsked(memories: seq<Memory>, sections: seq<Section>, p: Settings, slate: SlateId, n: nat, i: nat,
                         j: nat)
    requires Trace(memories, sections, p) && slate in SLATES && i < j < |memories|
    requires Finds(memories[i], sections[i], slate, n) && forall k :: i < k < j ==> !sections[k].Boot?
    ensures slate in memories[j].feed.weekParam && memories[j].feed.weekParam[slate] == memories[i].feed.weeks[n]
  {
    FoundAt(memories, sections, p, slate, n, i);
    WeekIsKept(memories, sections, p, slate, i + 1, j);
  }
}
