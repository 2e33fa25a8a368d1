/** A run of the preseason poller (blitz_source.go): one step for each stretch that the source runs
    under its lock. A snapshot may be taken between any two of them. */
module BlitzRun {
  import opened Text
  import opened BlitzHealth
  import opened BlitzFetch
  import opened BlitzFeed

  /** All that the lock guards. */
  datatype Memory = Memory(feed: Feed, ledger: Ledger, boxError: set<SlateId>, lastSchedule: map<SlateId, int>)

  /** The stretches of loadCachedFinals, probeSlates, one slate's schedule refresh, chargeBudget,
      and the attempt, the instant and the two endings of fetchBoxScore. */
  datatype Section =
    | Load(files: seq<CachedBox>)
    | Boot(first: SlateId, second: SlateId, answers: SlateId -> string -> Answer, at: int, teams: set<string>)
    | Refresh(slate: SlateId, answer: string -> Answer, at: int, teams: set<string>)
    | Charge(at: int)
    | Attempt(slate: SlateId, at: int)
    | NoteFetch(id: string, at: int)
    | Failure(slate: SlateId, error: string, at: int, teams: set<string>)
    | BoxScore(pick: Pick, lines: map<string, Line>, final: bool, at: int, teams: set<string>)

  /** The constants of a process: how a team is spelled, and the day's fetches. */
  datatype Settings = Settings(norm: string -> string, dailyBudget: int)

  /** When a section can run: the slates are the two known ones, and a refresh is due. */
  predicate Apt(m: Memory, section: Section)
  {
    m.feed.health.slates.Keys == SLATES &&
    match section
    case Boot(first, second, _, _, _) => {first, second} == SLATES
    case Refresh(slate, _, at, _) => slate in SLATES && RefreshDue(m.lastSchedule, slate, at)
    case Attempt(slate, _) => slate in SLATES
    case Failure(slate, _, _, _) => slate in SLATES
    case BoxScore(pick, _, _, _, _) => pick.game.slate in SLATES
    case _ => true
  }

  function Loaded(m: Memory, files: seq<CachedBox>): Memory
  {
    var view := m.feed.view;
    m.(feed := m.feed.(view := View(view.version + 1, view.games, LoadedStats(view.stats, files))),
       ledger := m.ledger.(finalCached := m.ledger.finalCached + LoadedFinals(files)))
  }

  function Failed(m: Memory, slate: SlateId, error: string, at: int, teams: set<string>, norm: string -> string): Memory
    requires m.feed.health.slates.Keys == SLATES && slate in SLATES
  {
    var boxError := m.boxError + {slate};
    m.(feed := FailedFeed(m.feed, slate, error, at, teams, norm, m.ledger.finalCached, boxError), boxError := boxError)
  }

  function Boxed(m: Memory, pick: Pick, lines: map<string, Line>, final: bool, at: int, teams: set<string>,
                 norm: string -> string): Memory
    requires m.feed.health.slates.Keys == SLATES && pick.game.slate in SLATES
  {
    var ledger, boxError := FinalNoted(m.ledger, pick, final, at), m.boxError - {pick.game.slate};
    m.(feed := BoxedFeed(m.feed, pick, lines, final, at, teams, norm, ledger.finalCached, boxError), ledger := ledger,
       boxError := boxError)
  }

  ghost predicate SectionStep(m: Memory, section: Section, after: Memory, p: Settings)
    requires Apt(m, section)
  {
    match section
    case Load(files) => after == Loaded(m, files)
    case Boot(first, second, answers, at, teams) =>
      && Booted(m.feed, first, second, answers, at, teams, p.norm, m.ledger.finalCached, m.boxError, after.feed)
      && after == m.(feed := after.feed, lastSchedule := m.lastSchedule[first := at][second := at])
    case Refresh(slate, answer, at, teams) =>
      && Refreshed(m.feed, slate, answer, at, teams, p.norm, m.ledger.finalCached, m.boxError, after.feed)
      && after == m.(feed := after.feed, lastSchedule := m.lastSchedule[slate := at])
    case Charge(at) => after == m.(ledger := Charged(m.ledger, p.dailyBudget, at).1)
    case Attempt(slate, at) => after == m.(feed := m.feed.(health := Attempted(m.feed.health, slate, at)))
    case NoteFetch(id, at) => after == m.(ledger := m.ledger.(lastFetch := m.ledger.lastFetch[id := at]))
    case Failure(slate, error, at, teams) => after == Failed(m, slate, error, at, teams, p.norm)
    case BoxScore(pick, lines, final, at, teams) => after == Boxed(m, pick, lines, final, at, teams, p.norm)
  }

  ghost predicate Passes(m: Memory, section: Section, after: Memory, p: Settings)
  {
    Apt(m, section) && SectionStep(m, section, after, p)
  }

  /** Section `i` takes the memory before it to the one after it. */
  ghost predicate PassesAt(memories: seq<Memory>, sections: seq<Section>, p: Settings, i: nat)
    requires i < |sections| && |memories| == |sections| + 1
  {
    Passes(memories[i], sections[i], memories[i + 1], p)
  }

  /** `memories[i]` is what the lock guards before section `i`. */
  ghost predicate Trace(memories: seq<Memory>, sections: seq<Section>, p: Settings)
  {
    |memories| == |sections| + 1 && forall i :: 0 <= i < |sections| ==> PassesAt(memories, sections, p, i)
  }

  lemma BothSlates(first: SlateId, second: SlateId)
    requires {first, second} == SLATES
    ensures first in SLATES && second in SLATES && first != second
  {
    assert first in {first, second} && second in {first, second};
    assert Pre2 in {first, second} && Pre3 in {first, second};
  }

  // ---------------------------------------------------------------- versions

  /** Whether a section takes the version up: a load and a box score, answered or not, always do;
      a schedule answer does when it places a game. */
  predicate Bumps(m: Memory, section: Section)
  {
    match section
    case Load(_) => true
    case Boot(first, second, answers, _, _) =>
      Placed(DecidingProbe(m.feed, answers(first))) != [] || Placed(DecidingProbe(m.feed, answers(second))) != []
    case Refresh(slate, answer, _, _) => Placed(Deciding(m.feed, slate, answer)) != []
    case Failure(_, _, _, _) => true
    case BoxScore(_, _, _, _, _) => true
    case _ => false
  }

  /** Every section takes the version up or leaves version, games and stats alone. */
  lemma VersionBumpsIff(m: Memory, section: Section, after: Memory, p: Settings)
    requires Passes(m, section, after, p)
    ensures Advances(m.feed.view, after.feed.view)
    ensures after.feed.view.version > m.feed.view.version <==> Bumps(m, section)
    ensures !section.Boot? ==> after.feed.view.version <= m.feed.view.version + 1
  {
    match section
    case Boot(first, second, answers, at, teams) =>
      BothSlates(first, second);
      BootedView(m.feed, first, second, answers, at, teams, p.norm, m.ledger.finalCached, m.boxError, after.feed);
    case Refresh(slate, answer, at, teams) =>
      RefreshedView(m.feed, slate, answer, at, teams, p.norm, m.ledger.finalCached, m.boxError, after.feed);
    case _ =>
  }

  lemma {:induction false} AdvancesAlong(memories: seq<Memory>, i: nat, j: nat)
    requires i <= j < |memories|
    requires forall k :: i <= k < j ==> Advances(memories[k].feed.view, memories[k + 1].feed.view)
    ensures Advances(memories[i].feed.view, memories[j].feed.view)
    decreases j - i
  {
    if i < j {
      AdvancesAlong(memories, i + 1, j);
      assert Advances(memories[i].feed.view, memories[i + 1].feed.view);
    }
  }

  /** Along every run, and so for all snapshots taken during it: the version never goes back, and
      two snapshots with one version show the same games and stats. */
  lemma SameVersionSameView(memories: seq<Memory>, sections: seq<Section>, p: Settings, i: nat, j: nat)
    requires Trace(memories, sections, p) && i <= j < |memories|
    ensures Advances(memories[i].feed.view, memories[j].feed.view)
  {
    forall k | i <= k < j
      ensures Advances(memories[k].feed.view, memories[k + 1].feed.view)
    {
      assert PassesAt(memories, sections, p, k);
      VersionBumpsIff(memories[k], sections[k], memories[k + 1], p);
    }
    AdvancesAlong(memories, i, j);
  }

  lemma {:induction false} NothingLoaded(stats: map<SlateId, map<string, Line>>, files: seq<CachedBox>)
    requires forall file :: file in files ==> !Usable(file)
    ensures LoadedStats(stats, files) == stats && LoadedFinals(files) == {}
  {
    if files != [] {
      NothingLoaded(stats, files[..|files| - 1]);
    }
  }

  /** So the version also moves when nothing else does: after a cache without a usable file. */
  lemma EmptyLoadBumps(m: Memory, files: seq<CachedBox>, p: Settings)
    requires m.feed.health.slates.Keys == SLATES && forall file :: file in files ==> !Usable(file)
    ensures var view := m.feed.view;
            Passes(m, Load(files), m.(feed := m.feed.(view := view.(version := view.version + 1))), p)
  {
    NothingLoaded(m.feed.view.stats, files);
    assert m.ledger.finalCached + {} == m.ledger.finalCached;
  }

  // ---------------------------------------------------------------- what every snapshot can rely on

  /** Both slates hold what they promise, and a Ready report is true of the entered teams `teams`:
      nothing is failing and no final slate lacks a score that one of them needs. */
  ghost predicate Sound(m: Memory, teams: set<string>, p: Settings)
  {
    PendingFeed(m.feed) &&
    ReadyIsSound(m.feed.health, m.feed.view.games, teams, p.norm, m.ledger.finalCached, m.feed.scheduleError,
                 m.boxError)
  }

  /** The entered teams the latest recount has read. */
  function TeamsAfter(teams: set<string>, section: Section): set<string>
  {
    match section
    case Boot(_, _, _, _, read) => read
    case Refresh(_, _, _, read) => read
    case Failure(_, _, _, read) => read
    case BoxScore(_, _, _, _, read) => read
    case _ => teams
  }

  function TeamsAlong(teams: set<string>, sections: seq<Section>): set<string>
  {
    if sections == [] then teams
    else TeamsAfter(TeamsAlong(teams, sections[..|sections| - 1]), sections[|sections| - 1])
  }

  lemma SoundFailure(m: Memory, slate: SlateId, error: string, at: int, teams: set<string>, p: Settings)
    requires PendingFeed(m.feed) && slate in SLATES
    ensures Sound(Failed(m, slate, error, at, teams, p.norm), teams, p)
  {
    var failed := WithSlate(m.feed.health, slate, AfterFailure(m.feed.health.slates[slate], at, error));
    RecountedPending(m.feed.(health := failed), teams, p.norm, m.ledger.finalCached, m.boxError + {slate}, at);
  }

  lemma SoundBox(m: Memory, pick: Pick, lines: map<string, Line>, final: bool, at: int, teams: set<string>, p: Settings)
    requires PendingFeed(m.feed) && pick.game.slate in SLATES
    ensures Sound(Boxed(m, pick, lines, final, at, teams, p.norm), teams, p)
  {
    var merged := MergedFeed(m.feed, pick, lines, final, at);
    BoxFeedKeeps(m.feed, pick, final, at, merged);
    RecountedPending(merged, teams, p.norm, FinalNoted(m.ledger, pick, final, at).finalCached,
                     m.boxError - {pick.game.slate}, at);
  }

  /** Every locked section, whichever it is and whatever it is answered. */
  lemma SoundStep(m: Memory, section: Section, after: Memory, teams: set<string>, p: Settings)
    requires Sound(m, teams, p) && Passes(m, section, after, p)
    ensures Sound(after, TeamsAfter(teams, section), p)
  {
    match section
    case Boot(first, second, answers, at, read) =>
      BothSlates(first, second);
      BootedPending(m.feed, first, second, answers, at, read, p.norm, m.ledger.finalCached, m.boxError, after.feed);
    case Refresh(slate, answer, at, read) =>
      RefreshedPending(m.feed, slate, answer, at, read, p.norm, m.ledger.finalCached, m.boxError, after.feed);
    case Failure(slate, error, at, read) => SoundFailure(m, slate, error, at, read, p);
    case BoxScore(pick, lines, final, at, read) => SoundBox(m, pick, lines, final, at, read, p);
    case _ =>
  }

  lemma TeamsStep(teams: set<string>, sections: seq<Section>, i: nat)
    requires i < |sections|
    ensures TeamsAlong(teams, sections[..i + 1]) == TeamsAfter(TeamsAlong(teams, sections[..i]), sections[i])
  {
    assert sections[..i + 1][..i] == sections[..i];
  }

  lemma {:induction false} SoundAlong(memories: seq<Memory>, sections: seq<Section>, p: Settings, teams: set<string>,
                                      i: nat)
    requires Trace(memories, sections, p) && i < |memories| && Sound(memories[0], teams, p)
    ensures Sound(memories[i], TeamsAlong(teams, sections[..i]), p)
  {
    if i > 0 {
      SoundAlong(memories, sections, p, teams, i - 1);
      TeamsStep(teams, sections, i - 1);
      assert PassesAt(memories, sections, p, i - 1);
      SoundStep(memories[i - 1], sections[i - 1], memories[i], TeamsAlong(teams, sections[..i - 1]), p);
    } else {
      assert TeamsAlong(teams, sections[..0]) == teams;
    }
  }

  /** What the lock guards in a new process. */
  function NewMemory(): Memory
  {
    Memory(Feed(WEEKS, map[], {}, NEW_HEALTH, View(0, [], map[Pre2 := map[], Pre3 := map[]])), NEW_LEDGER, {}, map[])
  }

  /** Every snapshot of every run of a new process: each slate holds what it promises, and a Ready
      report is true of the entered teams its recount read. */
  lemma EverySnapshotIsSound(memories: seq<Memory>, sections: seq<Section>, p: Settings, i: nat)
    requires Trace(memories, sections, p) && memories[0] == NewMemory() && i < |memories|
    ensures Sound(memories[i], TeamsAlong({}, sections[..i]), p)
  {
    SoundAlong(memories, sections, p, {}, i);
  }

  // ---------------------------------------------------------------- reports without a version

  /** A section that changes the health report and not the version: an attempt with a new instant,
      and a schedule answer that places no game. */
  predicate Silent(m: Memory, section: Section)
  {
    Apt(m, section) &&
    match section
    case Attempt(slate, at) => m.feed.health.slates[slate].lastAttempt != at || m.feed.health.lastAttempt != at
    case Boot(_, _, _, _, _) => !Bumps(m, section)
    case Refresh(_, _, _, _) => !Bumps(m, section)
    case _ => false
  }

  /** The clock has moved since the slate was last asked for. */
  predicate ClockMoved(m: Memory, section: Section)
    requires Apt(m, section)
  {
    match section
    case Boot(first, second, _, at, _) =>
      second in {first, second} && m.feed.health.slates[second].lastAttempt < at
    case Refresh(slate, _, at, _) => m.feed.health.slates[slate].lastAttempt < at
    case _ => true
  }

  /** The report changes under one version exactly in the silent sections, so a reader that
      compares versions alone misses those and no others. */
  lemma SilentReportIff(m: Memory, section: Section, after: Memory, p: Settings)
    requires Passes(m, section, after, p) && ClockMoved(m, section)
    ensures after.feed.view.version == m.feed.view.version && after.feed.health != m.feed.health <==> Silent(m, section)
  {
    VersionBumpsIff(m, section, after, p);
    match section
    case Boot(first, second, answers, at, teams) =>
      BothSlates(first, second);
      BootedView(m.feed, first, second, answers, at, teams, p.norm, m.ledger.finalCached, m.boxError, after.feed);
    case Refresh(slate, answer, at, teams) =>
      RefreshedView(m.feed, slate, answer, at, teams, p.norm, m.ledger.finalCached, m.boxError, after.feed);
    case _ =>
  }

  /** The attempt of a fetch is one: its report changes at once, the version only with the answer. */
  lemma AttemptIsSilent(m: Memory, slate: SlateId, at: int, p: Settings)
    requires m.feed.health.slates.Keys == SLATES && slate in SLATES && m.feed.health.slates[slate].lastAttempt < at
    ensures var after := m.(feed := m.feed.(health := Attempted(m.feed.health, slate, at)));
            Passes(m, Attempt(slate, at), after, p) && after.feed.view == m.feed.view &&
            after.feed.health != m.feed.health
  {
    var after := m.(feed := m.feed.(health := Attempted(m.feed.health, slate, at)));
    assert after.feed.health.slates[slate].lastAttempt == at;
  }

  /** Two snapshots with one version and different reports have a silent section between them. */
  lemma {:induction false} ReportsDifferOnlySilently(memories: seq<Memory>, sections: seq<Section>, p: Settings, i: nat,
                                                     j: nat)
    requires Trace(memories, sections, p) && i <= j < |memories|
    requires memories[i].feed.view.version == memories[j].feed.view.version
    requires memories[i].feed.health != memories[j].feed.health
    ensures exists k :: i <= k < j && Silent(memories[k], sections[k])
    decreases j - i
  {
    if !Silent(memories[i], sections[i]) {
      SameVersionSameView(memories, sections, p, i + 1, j);
      assert PassesAt(memories, sections, p, i);
      VersionBumpsIff(memories[i], sections[i], memories[i + 1], p);
      ReportsDifferOnlySilently(memories, sections, p, i + 1, j);
    }
  }

  // ---------------------------------------------------------------- the sections of a tick

  function Refreshing(lastSchedule: map<SlateId, int>, slate: SlateId, answer: string -> Answer, at: int,
                      teams: set<string>): seq<Section>
  {
    if RefreshDue(lastSchedule, slate, at) then [Refresh(slate, answer, at, teams)] else []
  }

  function Boxing(pick: Pick, answer: BoxAnswer, at: int, teams: set<string>): seq<Section>
  {
    [Attempt(pick.game.slate, at), NoteFetch(pick.game.id, at),
     match answer
     case NoBox(error) => Failure(pick.game.slate, error, at, teams)
     case Box(lines, final) => BoxScore(pick, lines, final, at, teams)]
  }

  function Fetching(l: Ledger, pick: Option<Pick>, answer: BoxAnswer, at: int, teams: set<string>, dailyBudget: int)
    : seq<Section>
  {
    match pick
    case None => []
    case Some(p) => [Charge(at)] + if Charged(l, dailyBudget, at).0 then Boxing(p, answer, at, teams) else []
  }

  /** What one tick meets: the clock, the order in which the slates are visited, the answers of the
      feed, and the entered teams each time they are read. */
  datatype TickInput = TickInput(
    now: int, first: SlateId, second: SlateId, answers: SlateId -> string -> Answer, teamsAtRefresh: set<string>,
    teams: set<string>, box: BoxAnswer, teamsAtFetch: set<string>)

  function RefreshSections(lastSchedule: map<SlateId, int>, i: TickInput): seq<Section>
  {
    Refreshing(lastSchedule, i.first, i.answers(i.first), i.now, i.teamsAtRefresh) +
    Refreshing(lastSchedule, i.second, i.answers(i.second), i.now, i.teamsAtRefresh)
  }

  function TickSections(lastSchedule: map<SlateId, int>, i: TickInput, l: Ledger, pick: Option<Pick>, dailyBudget: int)
    : seq<Section>
  {
    RefreshSections(lastSchedule, i) + Fetching(l, pick, i.box, i.now, i.teamsAtFetch, dailyBudget)
  }

  /** The fetch side of a tick, as one tick of the fetch plan. */
  function TickOf(games: seq<Game>, teams: set<string>, l: Ledger, pick: Option<Pick>, answer: BoxAnswer, at: int,
                  dailyBudget: int): Tick
  {
    Tick(at, games, teams,
         match pick
         case None => None
         case Some(p) =>
           if Charged(l, dailyBudget, at).0 then Some(Fetch(p, answer.Box? && answer.final)) else None)
  }

  function LedgerAfter(l: Ledger, pick: Option<Pick>, answer: BoxAnswer, at: int, dailyBudget: int): Ledger
  {
    match pick
    case None => l
    case Some(p) =>
      var (ok, charged) := Charged(l, dailyBudget, at);
      if ok then Fetched(charged, Fetch(p, answer.Box? && answer.final), at) else charged
  }

  lemma TickIsStep(games: seq<Game>, teams: set<string>, l: Ledger, pick: Option<Pick>, answer: BoxAnswer, at: int,
                   pollInterval: int, dailyBudget: int)
    requires Chosen(games, teams, l, pollInterval, at, pick)
    ensures TickStep(l, TickOf(games, teams, l, pick, answer, at, dailyBudget),
                     LedgerAfter(l, pick, answer, at, dailyBudget), pollInterval, dailyBudget)
  {
    if pick.Some? {
      assert pick == Some(pick.value);
    }
  }

  lemma RunGrows(ticks: seq<Tick>, ledgers: seq<Ledger>, t: Tick, after: Ledger, pollInterval: int, dailyBudget: int)
    requires Run(ticks, ledgers, pollInterval, dailyBudget)
    requires TickStep(ledgers[|ticks|], t, after, pollInterval, dailyBudget)
    ensures Run(ticks + [t], ledgers + [after], pollInterval, dailyBudget)
  {
    var all, grown := ticks + [t], ledgers + [after];
    forall i | 0 <= i < |all|
      ensures TickStep(grown[i], all[i], grown[i + 1], pollInterval, dailyBudget)
    {
      if i < |ticks| {
        assert TickStep(ledgers[i], ticks[i], ledgers[i + 1], pollInterval, dailyBudget);
      }
    }
  }

  /** A trace from one memory to another. */
  ghost predicate Ran(memories: seq<Memory>, sections: seq<Section>, p: Settings, before: Memory, after: Memory)
  {
    Trace(memories, sections, p) && memories[0] == before && memories[|memories| - 1] == after
  }

  lemma RanOne(m: Memory, section: Section, after: Memory, p: Settings)
    ensures Passes(m, section, after, p) ==> Ran([m, after], [section], p, m, after)
  {
    assert PassesAt([m, after], [section], p, 0) <==> Passes(m, section, after, p);
  }

  lemma JoinedAt<M, S>(memories: seq<M>, sections: seq<S>, more: seq<M>, next: seq<S>, i: nat)
    requires |memories| == |sections| + 1 && |more| == |next| + 1 && memories[|sections|] == more[0]
    requires i < |sections| + |next|
    ensures var all, steps, k := memories + more[1..], sections + next, i - |sections|;
            if i < |sections| then all[i] == memories[i] && steps[i] == sections[i] && all[i + 1] == memories[i + 1]
            else all[i] == more[k] && steps[i] == next[k] && all[i + 1] == more[k + 1]
  {
  }

  lemma RanBoth(memories: seq<Memory>, sections: seq<Section>, more: seq<Memory>, next: seq<Section>, p: Settings,
                before: Memory, mid: Memory, after: Memory)
    requires Ran(memories, sections, p, before, mid) && Ran(more, next, p, mid, after)
    ensures Ran(memories + more[1..], sections + next, p, before, after)
  {
    var all, steps := memories + more[1..], sections + next;
    forall i | 0 <= i < |steps|
      ensures PassesAt(all, steps, p, i)
    {
      JoinedAt(memories, sections, more, next, i);
      assert if i < |sections| then PassesAt(memories, sections, p, i) else PassesAt(more, next, p, i - |sections|);
    }
  }
}
