/** Slate and feed health of the preseason poller (blitz_source.go): what each status field means,
    and how a schedule answer, a box score and a recount move it. */
module BlitzHealth {
  import opened Text

  /** "pre2", "pre3", or the name a cached file gives. */
  datatype SlateId = Pre2 | Pre3 | OtherSlate(name: string)

  const SLATES := {Pre2, Pre3}
  const HOUR := 3_600_000_000_000
  const SCHEDULE_REFRESH := 24 * HOUR

  /** Instants are nanoseconds since Go's zero time, so 0 is the unset instant. */
  datatype Game = Game(id: string, slate: SlateId, away: string, home: string, kickoff: int, final: bool)

  datatype FeedGame = FeedGame(id: string, away: string, home: string, kickoff: int, final: bool)

  /** The status texts: none, games without a kickoff, a slate not published, final scores missing,
      or the safe copy of a provider's error. */
  datatype Note = NoNote | NoKickoff | Unpublished | MissingFinals | Provider(copy: string)

  datatype State = Loading | Ready | Degraded | Error | Stale | Disabled

  datatype SlateHealth = SlateHealth(
    state: State, error: Note, expected: nat, fetched: nat, finals: nat, expectedScoring: nat, fetchedScoring: nat,
    scoringComplete: bool, complete: bool, final: bool, verifiedZero: bool, lastAttempt: int, lastSuccess: int)

  datatype Health = Health(
    enabled: bool, state: State, safeError: Note, expected: nat, fetched: nat, finals: nat, expectedScoring: nat,
    fetchedScoring: nat, scoringComplete: bool, complete: bool, final: bool, verifiedZero: bool, lastAttempt: int,
    lastSuccess: int, slates: map<SlateId, SlateHealth>)

  const NEW_SLATE := SlateHealth(Loading, NoNote, 0, 0, 0, 0, 0, false, false, false, false, 0, 0)
  const NEW_HEALTH := Health(true, Loading, NoNote, 0, 0, 0, 0, 0, false, false, false, false, 0, 0,
                             map[Pre2 := NEW_SLATE, Pre3 := NEW_SLATE])

  // ---------------------------------------------------------------- the games of a slate

  function Held(games: seq<Game>, slate: SlateId): (held: seq<Game>)
  {
    if games == [] then []
    else
      var rest, g := Held(games[..|games| - 1], slate), games[|games| - 1];
      if g.slate == slate then rest + [g] else rest
  }

  function Others(games: seq<Game>, slate: SlateId): (others: seq<Game>)
  {
    if games == [] then []
    else
      var rest, g := Others(games[..|games| - 1], slate), games[|games| - 1];
      if g.slate != slate then rest + [g] else rest
  }

  function Finals(games: seq<Game>): (n: nat)
    ensures n <= |games|
  {
    if games == [] then 0 else Finals(games[..|games| - 1]) + if games[|games| - 1].final then 1 else 0
  }

  lemma {:induction false} AllFinal(games: seq<Game>)
    ensures Finals(games) == |games| <==> forall g :: g in games ==> g.final
  {
    if games != [] {
      var n := |games| - 1;
      AllFinal(games[..n]);
      assert games == games[..n] + [games[n]];
    }
  }

  /** The games of a slate with a final score that some entered player needs. */
  predicate NeedsFinal(g: Game, slate: SlateId, teams: set<string>, norm: string -> string)
  {
    g.slate == slate && g.final && (norm(g.away) in teams || norm(g.home) in teams)
  }

  function Needed(games: seq<Game>, slate: SlateId, teams: set<string>, norm: string -> string): (needed: seq<Game>)
  {
    if games == [] then []
    else
      var rest, g := Needed(games[..|games| - 1], slate, teams, norm), games[|games| - 1];
      if NeedsFinal(g, slate, teams, norm) then rest + [g] else rest
  }

  lemma {:induction false} NeededGames(games: seq<Game>, slate: SlateId, teams: set<string>, norm: string -> string)
    ensures forall g :: g in Needed(games, slate, teams, norm) <==> g in games && NeedsFinal(g, slate, teams, norm)
  {
    if games != [] {
      var n := |games| - 1;
      NeededGames(games[..n], slate, teams, norm);
      assert games == games[..n] + [games[n]];
    }
  }

  function CachedOf(games: seq<Game>, cached: set<string>): (n: nat)
    ensures n <= |games|
  {
    if games == [] then 0
    else CachedOf(games[..|games| - 1], cached) + if games[|games| - 1].id in cached then 1 else 0
  }

  lemma {:induction false} AllCached(games: seq<Game>, cached: set<string>)
    ensures CachedOf(games, cached) == |games| <==> forall g :: g in games ==> g.id in cached
  {
    if games != [] {
      var n := |games| - 1;
      AllCached(games[..n], cached);
      assert games == games[..n] + [games[n]];
    }
  }

  /** scoringCompletenessLocked: how many final scores the slate needs and how many are cached. */
  method ScoringCompleteness(games: seq<Game>, slate: SlateId, teams: set<string>, norm: string -> string,
                             cached: set<string>)
    returns (expected: nat, fetched: nat)
    ensures expected == |Needed(games, slate, teams, norm)|
    ensures fetched == CachedOf(Needed(games, slate, teams, norm), cached)
  {
    expected, fetched := 0, 0;
    for i := 0 to |games|
      invariant expected == |Needed(games[..i], slate, teams, norm)|
      invariant fetched == CachedOf(Needed(games[..i], slate, teams, norm), cached)
    {
      var game := games[i];
      assert games[..i + 1][..i] == games[..i];
      if game.slate != slate || !game.final {
        continue;
      }
      var away := norm(game.away);
      var home := norm(game.home);
      if away !in teams && home !in teams {
        continue;
      }
      ghost var before := Needed(games[..i], slate, teams, norm);
      assert (before + [game])[..|before|] == before;
      expected := expected + 1;
      if game.id in cached {
        fetched := fetched + 1;
      }
    }
    assert games[..|games|] == games;
  }

  /** The two counts agree exactly when every final game of the slate that an entered team plays has
      its score cached. */
  lemma NothingMissing(games: seq<Game>, slate: SlateId, teams: set<string>, norm: string -> string,
                       cached: set<string>)
    ensures CachedOf(Needed(games, slate, teams, norm), cached) == |Needed(games, slate, teams, norm)| <==>
            forall g :: g in games && g.slate == slate && g.final ==>
              g.id in cached || (norm(g.away) !in teams && norm(g.home) !in teams)
  {
    var needed := Needed(games, slate, teams, norm);
    AllCached(needed, cached);
    NeededGames(games, slate, teams, norm);
  }

  // ---------------------------------------------------------------- schedule answers

  function Placed(candidates: seq<FeedGame>): (kept: seq<FeedGame>)
    ensures |kept| <= |candidates|
  {
    if candidates == [] then []
    else
      var n := |candidates| - 1;
      if candidates[n].kickoff != 0 then Placed(candidates[..n]) + [candidates[n]] else Placed(candidates[..n])
  }

  lemma {:induction false} PlacedGames(candidates: seq<FeedGame>)
    ensures forall g :: g in Placed(candidates) <==> g in candidates && g.kickoff != 0
    ensures |Placed(candidates)| == |candidates| <==> forall g :: g in candidates ==> g.kickoff != 0
  {
    if candidates != [] {
      var n := |candidates| - 1;
      PlacedGames(candidates[..n]);
      assert candidates == candidates[..n] + [candidates[n]];
    }
  }

  /** blitzGamesWithKickoff. */
  method GamesWithKickoff(games: seq<FeedGame>) returns (kept: seq<FeedGame>, dropped: nat)
    ensures kept == Placed(games) && dropped == |games| - |kept|
  {
    kept, dropped := [], 0;
    for i := 0 to |games|
      invariant kept == Placed(games[..i]) && dropped == i - |kept|
    {
      assert games[..i + 1][..i] == games[..i];
      if games[i].kickoff == 0 {
        dropped := dropped + 1;
        continue;
      }
      kept := kept + [games[i]];
    }
    assert games[..|games|] == games;
  }

  function AsGames(games: seq<FeedGame>, slate: SlateId): (gs: seq<Game>)
    ensures |gs| == |games|
    ensures forall i :: 0 <= i < |gs| ==>
              gs[i] == Game(games[i].id, slate, games[i].away, games[i].home, games[i].kickoff, games[i].final)
  {
    seq(|games|, i requires 0 <= i < |games| =>
      Game(games[i].id, slate, games[i].away, games[i].home, games[i].kickoff, games[i].final))
  }

  /** How many of the listed games are final; the slate does not matter. */
  function FeedFinals(games: seq<FeedGame>): nat
  {
    Finals(AsGames(games, Pre2))
  }

  /** countFinalPreseasonGames. */
  method CountFinals(games: seq<FeedGame>) returns (count: nat)
    ensures count == FeedFinals(games)
  {
    count := 0;
    for i := 0 to |games|
      invariant count == FeedFinals(games[..i])
    {
      assert AsGames(games[..i + 1], Pre2)[..i] == AsGames(games[..i], Pre2);
      if games[i].final {
        count := count + 1;
      }
    }
    assert games[..|games|] == games;
  }

  lemma {:induction false} FeedFinalsAgree(games: seq<FeedGame>, slate: SlateId)
    ensures Finals(AsGames(games, slate)) == FeedFinals(games)
  {
    if games != [] {
      var n := |games| - 1;
      FeedFinalsAgree(games[..n], slate);
      assert AsGames(games, slate)[..n] == AsGames(games[..n], slate);
      assert AsGames(games, Pre2)[..n] == AsGames(games[..n], Pre2);
    }
  }

  /** A slate's status after an answer that lists it. */
  function Listed(st: SlateHealth, candidates: seq<FeedGame>, now: int, boxError: bool): SlateHealth
  {
    var games := Placed(candidates);
    var all := |games| == |candidates|;
    st.(lastAttempt := now, lastSuccess := now, expected := |candidates|, fetched := |games|,
        finals := FeedFinals(games), complete := all, verifiedZero := false,
        error := if !all then NoKickoff else if boxError then st.error else NoNote,
        state := if all then Ready else Degraded,
        final := all && candidates != [] && FeedFinals(games) == |candidates|)
  }

  /** A slate's status after answers that do not list it; `failed` when one of them was an error. */
  function Unlisted(st: SlateHealth, now: int, failed: bool): SlateHealth
  {
    var complete := st.complete && st.fetched == st.expected;
    st.(lastAttempt := now, error := Unpublished, complete := complete, final := complete && st.final,
        state := if !failed then Loading else if st.lastSuccess != 0 || st.complete then Degraded else Error)
  }

  /** refreshSlateFinalityLocked, on the games the slate now holds. */
  function Recounted(st: SlateHealth, held: seq<Game>): SlateHealth
  {
    st.(fetched := |held|, finals := Finals(held),
        final := st.complete && st.expected > 0 && Finals(held) == st.expected)
  }

  /** One slate's part of recomputeHealthLocked. */
  function Judged(st: SlateHealth, expectedScoring: nat, fetchedScoring: nat, scheduleError: bool, boxError: bool)
    : SlateHealth
  {
    var scored := st.(expectedScoring := expectedScoring, fetchedScoring := fetchedScoring,
                      scoringComplete := expectedScoring == fetchedScoring);
    if boxError || (scheduleError && st.state == Ready) then scored.(state := Degraded)
    else if scheduleError then scored
    else if st.final && !scored.scoringComplete then
      scored.(state := Degraded, error := if st.error == NoNote then MissingFinals else st.error)
    else if st.error == MissingFinals then scored.(error := NoNote, state := if st.complete then Ready else st.state)
    else if st.complete && st.state == Degraded && st.error == NoNote then scored.(state := Ready)
    else scored
  }

  // ---------------------------------------------------------------- what a status promises

  /** A complete slate holds every game the schedule listed; a final one has all of them final. */
  predicate SlateOk(st: SlateHealth, held: seq<Game>)
  {
    && (st.complete ==> st.expected == st.fetched == |held| && st.finals <= Finals(held))
    && (st.final ==> st.complete && st.expected > 0 && st.finals == st.expected && forall g :: g in held ==> g.final)
    && st.state in {Loading, Ready, Degraded, Error}
    && (st.state == Ready ==> st.complete)
    && (st.state == Error ==> !st.complete)
    && !st.verifiedZero
  }

  lemma ListedOk(st: SlateHealth, candidates: seq<FeedGame>, now: int, boxError: bool, slate: SlateId, held: seq<Game>)
    requires candidates != []
    requires Placed(candidates) != [] ==> multiset(held) == multiset(AsGames(Placed(candidates), slate))
    ensures SlateOk(Listed(st, candidates, now, boxError), held)
  {
    var games := AsGames(Placed(candidates), slate);
    if |Placed(candidates)| == |candidates| {
      assert |held| == |multiset(held)| == |multiset(games)|;
      FeedFinalsAgree(Placed(candidates), slate);
      FinalsOfMultiset(held, games);
      AllFinal(held);
    }
  }

  /** What a slate's status says after an answer that lists it: complete and Ready exactly when every
      listed game has a kickoff, final exactly when all of them are final besides. */
  lemma ListedSays(st: SlateHealth, candidates: seq<FeedGame>, now: int, boxError: bool)
    requires candidates != []
    ensures var after := Listed(st, candidates, now, boxError);
            && (after.complete <==> forall g :: g in candidates ==> g.kickoff != 0)
            && (after.final <==> forall g :: g in candidates ==> g.kickoff != 0 && g.final)
            && after.state == (if after.complete then Ready else Degraded)
            && after.error == (if !after.complete then NoKickoff else if boxError then st.error else NoNote)
            && after.expected == |candidates| && after.lastAttempt == after.lastSuccess == now
  {
    var placed := Placed(candidates);
    PlacedGames(candidates);
    var games := AsGames(placed, Pre2);
    AllFinal(games);
    assert forall i :: 0 <= i < |placed| ==> games[i].final == placed[i].final;
    assert (forall g :: g in games ==> g.final) <==> forall g :: g in placed ==> g.final by {
      forall g | g in placed
        ensures exists h :: h in games && h.final == g.final
      {
        var i :| 0 <= i < |placed| && placed[i] == g;
        assert games[i] in games;
      }
    }
  }

  lemma FinalsAround(before: seq<Game>, g: Game, after: seq<Game>)
    ensures Finals(before + [g] + after) == Finals(before + after) + if g.final then 1 else 0
  {
    FinalsOfConcat(before + [g], after);
    FinalsOfConcat(before, after);
    assert (before + [g])[..|before|] == before;
  }

  /** A sequence holding `g`, cut around one of its occurrences. */
  lemma Around(games: seq<Game>, g: Game) returns (before: seq<Game>, after: seq<Game>)
    requires g in multiset(games)
    ensures games == before + [g] + after
    ensures multiset(before + after) == multiset(games) - multiset{g}
  {
    var k :| 0 <= k < |games| && games[k] == g;
    before, after := games[..k], games[k + 1..];
    assert games == before + [g] + after;
  }

  lemma {:induction false} FinalsOfMultiset(a: seq<Game>, b: seq<Game>)
    requires multiset(a) == multiset(b)
    ensures Finals(a) == Finals(b)
    decreases |a|
  {
    if a == [] {
      assert |multiset(b)| == 0;
    } else {
      assert a[0] in multiset(a);
      var before, after := Around(a, a[0]);
      var front, back := Around(b, a[0]);
      FinalsAround(before, a[0], after);
      FinalsAround(front, a[0], back);
      FinalsOfMultiset(before + after, front + back);
    }
  }

  lemma {:induction false} FinalsOfConcat(a: seq<Game>, b: seq<Game>)
    ensures Finals(a + b) == Finals(a) + Finals(b)
  {
    if b == [] {
      assert a + b == a;
    } else {
      var n := |b| - 1;
      FinalsOfConcat(a, b[..n]);
      assert (a + b)[..|a + b| - 1] == a + b[..n];
    }
  }

  /** An answer without the slate takes nothing away from it: what was complete stays complete. */
  lemma UnlistedOk(st: SlateHealth, held: seq<Game>, now: int, failed: bool)
    requires SlateOk(st, held)
    ensures SlateOk(Unlisted(st, now, failed), held)
    ensures Unlisted(st, now, failed).complete == st.complete && Unlisted(st, now, failed).final == st.final
  {
  }

  /** An answer without the slate: Loading while nothing failed, and Error only if the slate has
      never been fetched and is not complete. What was counted stays counted. */
  lemma UnlistedSays(st: SlateHealth, held: seq<Game>, now: int, failed: bool)
    requires SlateOk(st, held)
    ensures var after := Unlisted(st, now, failed);
            && (after.state == Loading <==> !failed)
            && (after.state == Error <==> failed && st.lastSuccess == 0 && !st.complete)
            && after.state in {Loading, Error, Degraded} && after.error == Unpublished && after.lastAttempt == now
            && after == st.(state := after.state, error := Unpublished, lastAttempt := now)
  {
  }

  lemma RecountedOk(st: SlateHealth, held: seq<Game>)
    requires st.complete ==> st.expected == |held|
    requires st.state in {Loading, Ready, Degraded, Error} && (st.state == Ready ==> st.complete)
    requires (st.state == Error ==> !st.complete) && !st.verifiedZero
    ensures SlateOk(Recounted(st, held), held)
    ensures Recounted(st, held).final <==> st.complete && held != [] && forall g :: g in held ==> g.final
  {
    AllFinal(held);
  }

  /** A slate judged Ready is complete, has no failure pending and no final score missing. */
  lemma ReadySlate(st: SlateHealth, held: seq<Game>, expectedScoring: nat, fetchedScoring: nat, scheduleError: bool,
                   boxError: bool)
    requires SlateOk(st, held)
    requires Judged(st, expectedScoring, fetchedScoring, scheduleError, boxError).state == Ready
    ensures !scheduleError && !boxError && st.complete && (st.final ==> expectedScoring == fetchedScoring)
  {
  }

  /** A judgement changes state, note and scoring counts alone. It ends Ready exactly for a complete
      slate with no failure pending and no final score missing, whose trouble, if any, was that
      missing scores have arrived or that it was left degraded without a note. */
  lemma JudgedSays(st: SlateHealth, held: seq<Game>, expectedScoring: nat, fetchedScoring: nat, scheduleError: bool,
                   boxError: bool)
    requires SlateOk(st, held)
    ensures var after := Judged(st, expectedScoring, fetchedScoring, scheduleError, boxError);
            && after == st.(state := after.state, error := after.error, expectedScoring := expectedScoring,
                            fetchedScoring := fetchedScoring, scoringComplete := expectedScoring == fetchedScoring)
            && (after.state == Ready <==>
                  && st.complete && !scheduleError && !boxError && (st.final ==> expectedScoring == fetchedScoring)
                  && (st.state == Ready || st.error == MissingFinals || (st.state == Degraded && st.error == NoNote)))
            && (boxError ==> after.state == Degraded && after.error == st.error)
            && (scheduleError && !boxError ==>
                  after.state == (if st.state == Ready then Degraded else st.state) && after.error == st.error)
            && (!scheduleError && !boxError ==>
                  (after.error == MissingFinals <==>
                     st.final && expectedScoring != fetchedScoring && st.error in {NoNote, MissingFinals}))
  {
  }

  /** Once the schedule is sound, a box score that arrives leaves a complete slate degraded only
      for missing final scores; nothing else can keep it so. */
  lemma SuccessfulFetchHeals(st: SlateHealth, held: seq<Game>, expectedScoring: nat, fetchedScoring: nat)
    requires SlateOk(st, held) && st.complete && st.state != Loading && st.error == NoNote
    ensures var after := Judged(Recounted(st, held), expectedScoring, fetchedScoring, false, false);
            after.state == if after.final && !after.scoringComplete then Degraded else Ready
  {
  }

  // ---------------------------------------------------------------- the whole feed

  predicate Failing(st: SlateHealth)
  {
    st.state == Error || st.state == Degraded
  }

  /** The running totals of recomputeHealthLocked. */
  datatype Tally = Tally(
    expected: nat, fetched: nat, finals: nat, expectedScoring: nat, fetchedScoring: nat, complete: bool, terminal: bool,
    scoringComplete: bool, anySuccess: bool, anyError: bool, anyLoading: bool, lastSuccess: int, lastAttempt: int,
    safeError: Note)

  const NO_TALLY := Tally(0, 0, 0, 0, 0, true, true, true, false, false, false, 0, 0, NoNote)

  function Tallied(t: Tally, st: SlateHealth): Tally
  {
    Tally(t.expected + st.expected, t.fetched + st.fetched, t.finals + st.finals,
          t.expectedScoring + st.expectedScoring, t.fetchedScoring + st.fetchedScoring,
          t.complete && (st.complete || st.verifiedZero), t.terminal && st.final,
          t.scoringComplete && st.scoringComplete, t.anySuccess || st.lastSuccess != 0, t.anyError || Failing(st),
          t.anyLoading || st.state == Loading, if st.lastSuccess > t.lastSuccess then st.lastSuccess else t.lastSuccess,
          if st.lastAttempt > t.lastAttempt then st.lastAttempt else t.lastAttempt,
          if t.safeError == NoNote then st.error else t.safeError)
  }

  function Reported(t: Tally, now: int, slates: map<SlateId, SlateHealth>): Health
  {
    Health(true,
           if t.anyError && t.anySuccess then Degraded
           else if t.anyError then Error
           else if t.anyLoading then Loading
           else if t.lastSuccess != 0 && now - t.lastSuccess > SCHEDULE_REFRESH then Stale
           else Ready,
           t.safeError, t.expected, t.fetched, t.finals, t.expectedScoring, t.fetchedScoring, t.scoringComplete,
           t.complete, t.complete && t.terminal, t.complete && t.expected == 0, t.lastAttempt, t.lastSuccess, slates)
  }

  /** The feed-wide report of two judged slates. */
  function Summary(a: SlateHealth, b: SlateHealth, now: int): Health
  {
    Reported(Tallied(Tallied(NO_TALLY, a), b), now, map[Pre2 := a, Pre3 := b])
  }

  /** The feed is Ready exactly when both slates are and the newest good answer is a day old at most. */
  lemma ReadyFeed(a: SlateHealth, b: SlateHealth, now: int)
    requires a.state in {Loading, Ready, Degraded, Error} && b.state in {Loading, Ready, Degraded, Error}
    requires a.lastSuccess >= 0 && b.lastSuccess >= 0
    ensures Summary(a, b, now).state == Ready <==>
            a.state == Ready && b.state == Ready &&
            (a.lastSuccess == b.lastSuccess == 0 ||
             now - a.lastSuccess <= SCHEDULE_REFRESH || now - b.lastSuccess <= SCHEDULE_REFRESH)
  {
  }

  /** Every state the feed can report, by its slates alone: Error while one is failing and none has
      ever been fetched, Degraded while one is failing and some has, Loading while one is loading and
      none is failing, and Stale when both are Ready but the newest good answer is over a day old. */
  lemma FeedStates(a: SlateHealth, b: SlateHealth, now: int)
    requires a.state in {Loading, Ready, Degraded, Error} && b.state in {Loading, Ready, Degraded, Error}
    requires a.lastSuccess >= 0 && b.lastSuccess >= 0
    ensures var state := Summary(a, b, now).state;
            var failing := {a.state, b.state} * {Degraded, Error} != {};
            var fetched := a.lastSuccess != 0 || b.lastSuccess != 0;
            && (state == Error <==> failing && !fetched)
            && (state == Degraded <==> failing && fetched)
            && (state == Loading <==> !failing && Loading in {a.state, b.state})
            && (state == Stale <==>
                  a.state == b.state == Ready && fetched && now - a.lastSuccess > 24 * HOUR &&
                  now - b.lastSuccess > 24 * HOUR)
  {
    assert Degraded in {a.state, b.state} * {Degraded, Error} <==> a.state == Degraded || b.state == Degraded;
    assert Error in {a.state, b.state} * {Degraded, Error} <==> a.state == Error || b.state == Error;
  }

  /** The feed's counts are the slates' added up, its instants their latest, its claims those both
      make, and its note the first one. */
  lemma FeedAddsUp(a: SlateHealth, b: SlateHealth, heldA: seq<Game>, heldB: seq<Game>, now: int)
    requires SlateOk(a, heldA) && SlateOk(b, heldB) && a.lastAttempt >= 0 && b.lastAttempt >= 0
    requires a.lastSuccess >= 0 && b.lastSuccess >= 0
    ensures var f := Summary(a, b, now);
            && f.expected == a.expected + b.expected && f.fetched == a.fetched + b.fetched
            && f.finals == a.finals + b.finals && f.expectedScoring == a.expectedScoring + b.expectedScoring
            && f.fetchedScoring == a.fetchedScoring + b.fetchedScoring
            && (f.complete <==> a.complete && b.complete) && (f.final <==> a.final && b.final)
            && (f.scoringComplete <==> a.scoringComplete && b.scoringComplete)
            && (f.verifiedZero <==> f.complete && f.expected == 0)
            && f.lastAttempt in {a.lastAttempt, b.lastAttempt}
            && f.lastAttempt >= a.lastAttempt && f.lastAttempt >= b.lastAttempt
            && f.lastSuccess in {a.lastSuccess, b.lastSuccess}
            && f.lastSuccess >= a.lastSuccess && f.lastSuccess >= b.lastSuccess
            && f.safeError == (if a.error != NoNote then a.error else b.error)
            && f.enabled && f.slates == map[Pre2 := a, Pre3 := b]
  {
  }

  /** A final feed has every listed game of both slates held and final. */
  lemma FinalFeed(a: SlateHealth, b: SlateHealth, heldA: seq<Game>, heldB: seq<Game>, now: int)
    requires SlateOk(a, heldA) && SlateOk(b, heldB)
    ensures Summary(a, b, now).final ==>
            Summary(a, b, now).finals == Summary(a, b, now).expected == |heldA| + |heldB| > 0 &&
            forall g :: g in heldA + heldB ==> g.final
  {
  }
}
