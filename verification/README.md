# Gridiron: verified model

A Dafny model of the stateful protocols and text transformations of the fantasy-football server,
with proofs of what they keep over every run. Each file is one module; `Text` holds the string
functions the others share. `dafny verify dfyconfig.toml` checks the whole project.

Code that updates fields is a class whose methods are proved against functions of the old state, or
against contracts on the new state. A protocol that several goroutines take part in also has a state
machine over the same functions, in which reading, locking and announcing are separate steps, and
its theorems range over all sequences of steps.

| module | what it models |
|---|---|
| DraftLive | the draft room's change detector, event sink and join repair |
| SetupCommit, CommitRuns, RuntimeEnv | the setup wizard's five-step commit under faults, crashes and retries; the environment file |
| SetupToken, RateLimiter | the setup token guard and its attempt limiter |
| Registration | first-sight registration with one `sync.Once` for each email |
| BlitzHealth, BlitzFetch, BlitzFeed, BlitzRun, BlitzShown, BlitzPoller | the preseason poller: slate status, fetch selection and budget, schedule answers and box scores, runs of locked sections, what their snapshots show, the poller object |
| SnapshotMemo, SeasonHist | the version-tagged snapshot memo; the fingerprint-keyed memo of season lines |
| SeasonFetch | paged season fetch under a row cap |
| DraftTape, TapePolls | the draft tape of one request; chains of `?since=` polls |
| Stylesheet, StylesheetLines | the CSS comment scanner and blank-line pass |
| WizardForms | the wizard's text areas and their parsers |

## Where the code does less than its comments say

Each item has a theorem with the exact condition and a lemma at an input where the promise fails.

- The draft room can stop announcing while a client is behind. The join handler checks that one
  client is connected, not that it is its own: a client that leaves while its handler runs silences
  the detector over the one that stays. On the program's runs, in which `Start` comes before the
  server listens (main.go:134-145), the guarantee to clients holds throughout exactly when no handler
  counts, for a client that has left, one that is behind (`DraftLive.ProgramRunIff`,
  `DraftLive.LeaveMidJoinLoses`). What was lost is made good with the next commit
  (`DraftLive.LossHeals`).
- The comment on `Sink` says `last` only ever advances. It goes back exactly when a tick, the start,
  a newer sink event or a first joiner writes a fingerprint read before `last` was committed
  (`DraftLive.LastMovesBackIff`, `DraftLive.LastCanMoveBack`).
- A failed write of the invite list leaves the address in memory, and a retry then skips the write.
  The admissions of an attempt that wrote league.json survive the restart exactly when it met an
  address new in memory or all its addresses were stored already
  (`CommitRuns.AdmissionsSurviveIff`, `CommitRuns.RetryCanLoseAnInvite`).
- The completion page shows one link for each member line. A link is live exactly when no later line
  names the same address (`CommitRuns.ShownLinkIsLiveIff`, `CommitRuns.SecondSpellingKillsTheFirst`).
- The row-cap warning is described as the case where rows were provably dropped. It is also raised
  for exactly 1000 matching rows, when none was (`SeasonFetch.WarnedAndDropped`,
  `SeasonFetch.FullAnswerWarns`). The schedule's team names are trimmed and not upper-cased, while a
  query upper-cases its filter: the paged fetch is one pass exactly when no team with rows is spelled
  in two ways (`SeasonFetch.ScheduledFetchIff`, `SeasonFetch.TwoSpellingsRepeat`).
- A catch-up is described as one a day. It is due again exactly when its box score was not final
  (`BlitzFetch.CatchUpRepeatsIff`, both cases).
- A snapshot's version speaks for its games and stats and not for its health report, which changes
  under one version exactly in a new attempt and in a schedule answer that places no game, asked for
  later than the slate's last attempt (`BlitzRun.SilentReportIff`, `BlitzRun.AttemptIsSilent`).
- Prepending `?since=` answers loses no pick and repeats no header, but the rows equal a fresh full
  render exactly when every cursor that brought something stood at a round's end
  (`TapePolls.ChainIsFullTapeIff`): within a round new cards arrive above the header already shown
  (`TapePolls.CardAboveItsHeader`).
- Stripping a stylesheet twice equals stripping it once exactly when no removed comment stood
  between `/` and `*` (`StylesheetLines.StripTwiceIff`, `StylesheetLines.CommentBetweenMarks`).

Two facts about `LiveUpdates` alone, which the program's own use of it rules out: with clients already
connected, the baseline of `Start` can hide a commit from them (`DraftLive.StartBaselineSafeIff`,
`DraftLive.StartLosesACommit`, `DraftLive.FirstBaselineLosesACommit`), and two sink calls at once can
broadcast a repair behind a newer event (`DraftLive.OverlappingSinksReorder`), where the one consumer of
internal/league/draft_events.go:79-109 keeps them in order (`DraftLive.RepairsNeverGoBack`).

## What is assumed

- DraftLive: fingerprints are non-empty and never reused; a page's since token is no newer than the
  state the page shows; a client reads the current state on any event, and a broadcast reaches every
  connected client. Clients may leave at any time, and runs start before `Start`.
- SetupCommit: one commit at a time; a rename is atomic; `LoadConfigBytes`, SHA-256 and the email
  normal form are functions; a database write either happens or changes nothing; a completed commit
  admits no further commit before the restart (setup_app.go:256-260); nobody signs in during setup,
  so no link is used up.
- SetupToken: random values are never seen twice and SHA-256 is injective. The methods model a failing
  random source; the theorems on the idle timeout take one that yields a token, as `crypto/rand.Read`
  always does from Go 1.24 on (go.mod:3). RateLimiter: the clock does not go back.
- Blitz: the poller's goroutine is alone in writing; the status texts are told apart by name and no
  provider's error text is empty or equal to one of the poller's own; instants are nanoseconds since Go's zero time;
  `sort.Slice` yields some list in kickoff order. The fairness theorem needs ticks at increasing
  instants, the budget theorem a clock that does not go back. The theorems on missing final scores
  take team names as the feed parser leaves them, trimmed and upper-case
  (internal/fantasy/preseason.go:66-67, internal/fantasy/tank01.go:507-509).
- SnapshotMemo: while the poller's version stands, so does what it holds, apart from the window rule
  its own `Snapshot` applies by the clock.
- SeasonHist: numbers are reals; those of the scoring tables compared are printed apart from each other
  and without a `;`; player keys, scoring and the rendered line are functions. SeasonFetch: `norm` is
  trimming and upper-casing with `norm("REG") == "REG"`. WizardForms: `upper` keeps what `Casing` lists.
- TapePolls: picks are numbered 1, 2, 3, ... and pick `p` of `t` teams belongs to round
  `(p - 1) / t + 1`, as the rounds of internal/league/draft_history.go:251-272 are cut. A header row
  stands for its round; its live-bound counters are not part of the row.

## Model

| member | source | states |
|---|---|---|
| `DraftLive.LiveUpdates.Observe` | app/draft/live.go:112-133 | the new baseline, and that a change is announced only when one is recorded and asked for |
| `DraftLive.LiveUpdates.SyncJoiningClient` | app/draft/live.go:135-167 | a joiner is repaired exactly when its token differs from the state read; only the first client moves the baseline |
| `DraftLive.LiveUpdates.Sink` | app/draft/live.go:194-216 | only a higher generation moves the baseline; only a stale draft:state is held back |
| `DraftLive.LiveUpdates.SetDraftEventSink` | app/draft/live.go:239-244 | a new sink starts from generation 0 and leaves the baseline alone |
| `DraftLive.GuardedIff` | app/draft/live.go:75-216 | over every split step of the start, commits, ticks, sink calls, joins, leaves and re-installs: "if `last` is current, every client is current or about to be told" is kept iff the step does not lose a change |
| `DraftLive.GuardedAlongRunIff` | app/draft/live.go:75-216 | along every run it holds throughout iff no step of the run loses a change |
| `DraftLive.OrderlyIsCareful` | app/draft/live.go:75-151 | a run whose Start comes before the room opens and in which no handler counts for a client that has left loses nothing |
| `DraftLive.ProgramRunIff` | main.go:134-145 | on every run of the program, in which clients register once Start is done, the guarantee holds throughout iff no join handler whose client has left counts one that is behind and about to be told nothing |
| `DraftLive.LossHeals` | app/draft/live.go:112-216 | after any run at all, a commit and steps that lose nothing, the guarantee holds and at rest a tick makes every client current |
| `DraftLive.ReachableInv` | app/draft/live.go:75-244 | the guarantee holds in every state that a run without a losing step reaches from an unstarted process |
| `DraftLive.NoClientBehind` | app/draft/live.go:112-216 | whenever `last` is the current fingerprint and nothing is in flight, every connected client has read the current version |
| `DraftLive.TickCatchesUp` | app/draft/live.go:84-96 | after a whole tick from any such state at rest every client has read the current version |
| `DraftLive.TickCovers` | app/draft/live.go:112-133 | an uninterrupted tick changes nothing, or records the current version and tells every client; either way each client is current or about to be told |
| `DraftLive.RepairsNeverGoBack` | app/draft/live.go:183-216 | along every run in which one consumer calls the sink, a draft:state that is broadcast carries a generation above every event broadcast before it |
| `DraftLive.RepairOrderIff` | app/draft/live.go:194-216 | a step breaks that order iff it broadcasts a draft:state after an event as new |
| `DraftLive.HeldBackIff` | app/draft/live.go:194-244 | on every run each event that reaches the sink goes out but a draft:state no newer than one handled since the sink was installed |
| `DraftLive.OnlyChangesAreAnnounced` | app/draft/live.go:112-167 | apart from the sink's events only a tick announces, and only when it moves the baseline from one committed state to another |
| `DraftLive.OverlappingSinksReorder` | app/draft/live.go:194-216 | why one consumer is needed, for the type alone: of two sink calls at once the newer event may be broadcast first |
| `DraftLive.StartBaselineSafeIff` | app/draft/live.go:75-80 | the baseline of Start, the first or a later one, keeps the guarantee iff what it read is no longer current or every client is current or about to be told |
| `DraftLive.StartLosesACommit` | app/draft/live.go:75-80 | for the type alone, with a client connected before Start: a run in which the baseline of Start hides a commit from it |
| `DraftLive.FirstBaselineLosesACommit` | app/draft/live.go:75-80 | the same with no baseline before: two clients registered before either counted |
| `DraftLive.GuardedCountIff` | app/draft/live.go:135-151 | a handler that counts one client keeps the guarantee iff the client is its own, or is current or about to be told, or what it read is no longer current |
| `DraftLive.ListeningReached` | main.go:134-145 | the program reaches the room that the following run starts from: Start is done, nobody is connected |
| `DraftLive.LeaveMidJoinLoses` | app/draft/live.go:135-151 | a run from the room at the moment the server listens, in which a client leaves while its handler runs and the other client stays behind |
| `DraftLive.LastMovesBackIff` | app/draft/live.go:112-216 | a step takes `last` to an older version iff it writes a fingerprint committed before it |
| `DraftLive.LastCanMoveBack` | app/draft/live.go:174-216 | a run in which a late tick returns `last` to an older version |
| `RuntimeEnv.LoadRuntimeEnvFile` | runtime_env.go:30-60 | the environment and error a file leaves, a missing file included |
| `RuntimeEnv.LoadedValue` | runtime_env.go:39-59 | for every well-formed file: a non-blank variable is kept, else the first non-blank definition wins, else a blank one empties it |
| `RuntimeEnv.LoadStopsAtBadLine` | runtime_env.go:44-51 | the error names the first malformed line and the lines above it have taken effect |
| `RuntimeEnv.RenderRuntimeEnv` | runtime_env.go:68-81 | the rendered text: header, commissioner, aliases when there are any, secret |
| `RuntimeEnv.RenderedFileRestores` | runtime_env.go:30-81 | loading a rendered file succeeds and merges exactly the rendered bindings |
| `RuntimeEnv.ReadsBack` | runtime_env.go:30-81 | the commissioner, alias and secret values come back exactly under variables that are unset, and no other variable changes |
| `SetupCommit.Machine.WriteFileAtomic` | runtime_env.go:96-123 | whichever operation fails, the target holds the old bytes or all new ones, and no temporary file is left by a live process |
| `SetupCommit.Machine.StepValidate` | wizard_commit.go:60-72 | succeeds iff the draft marshals and validates, and records those bytes and their hash |
| `SetupCommit.Machine.StepWriteRuntimeEnv` | wizard_commit.go:76-83 | runtime.env is untouched or the attempt's whole rendering |
| `SetupCommit.Machine.Mint` | internal/league/invite_store.go:214-296 | where a mint can stop: refused by the address or the write gate, admitted in memory only, admitted and stored, or also linked, which revokes the earlier link of the address |
| `SetupCommit.Machine.StepWriteInvites` | wizard_commit.go:93-112 | which recipients are admitted when the step stops, and the links of all of them when it does not |
| `SetupCommit.Machine.StepWriteLeagueJSON` | wizard_commit.go:117-119 | league.json is untouched or the validated bytes |
| `SetupCommit.Machine.StepMarkSetupComplete` | wizard_commit.go:125-130 | the marker carries the hash of the validated bytes; the write gate is asked first |
| `SetupCommit.Machine.CommitWizard` | wizard_commit.go:136-154 | the outside world after the five steps for every operation at which a fault or crash may cut them, and that enough operations complete it |
| `SetupCommit.CompletesIff` | wizard_commit.go:60-154 | a commit can complete iff the config loads, the store takes writes and every line that is not blank is an address; it is refused at the first step iff the config does not load |
| `SetupCommit.LinkShown` | wizard_commit.go:93-112 | the completion page shows one link for each recipient: it names the recipient, ends in the recipient's token and starts with the trimmed league URL without one closing slash |
| `CommitRuns.CommittedInv` | wizard_commit.go:60-154 | one attempt, stopped anywhere, keeps the guarantee |
| `CommitRuns.CommitIsCrashSafe` | wizard_commit.go:60-154 | over every sequence of edited attempts, crashes and restarts of a new instance: files absent or some attempt's whole bytes; a present league.json validated, its attempt's members admitted unless a restart since it was written met a failed write of the list, runtime.env of its attempt or later; a marker only with a matching league.json |
| `CommitRuns.RetryCompletes` | wizard_commit.go:147-154 | an uninterrupted acceptable attempt completes from whatever was left, and the next boot is configured with that draft |
| `CommitRuns.AdmissionsSurviveIff` | internal/league/invite_store.go:224-237 | when the admissions of an attempt that wrote league.json survive the restart; one new address makes the whole list safe |
| `CommitRuns.AdmissionsLast` | internal/league/invite_store.go:224-237 | and those that do are there after every later attempt, crash and restart |
| `CommitRuns.RetryCanLoseAnInvite` | internal/league/invite_store.go:224-237 | a failed write and a completed retry after which the restart has forgotten the only member |
| `CommitRuns.AttemptLetsIn` | internal/league/invite_store.go:214-296 | wherever an attempt stops only addresses are let in or get a link, and a store that takes no writes is left as it was |
| `CommitRuns.OnlyAddressesAreInvited` | internal/league/invite_store.go:214-296 | over every run of a new instance nobody without an address is let in |
| `CommitRuns.ShownLinkIsLiveIff` | internal/league/invite_store.go:242-296 | the token at the end of a URL that the completion page shows opens its recipient's invite iff no later line names the same address |
| `CommitRuns.SecondSpellingKillsTheFirst` | wizard_commit.go:93-112 | two spellings of one address: the first link shown is dead, the second live |
| `CommitRuns.EarlierLinkIsLiveIff` | internal/league/invite_store.go:242-296 | a link from an earlier attempt stays live iff the completing one does not name its address |
| `CommitRuns.BootReadsRuntimeEnv` | runtime_env.go:30-60 | what boot reads from whichever attempt's runtime.env is on disk |
| `SetupToken.SetupTokenGuard.RemintLocked` | setup_token.go:81-96 | a mint replaces hash and epoch, frees the claim and prints the token; a failed random source changes nothing |
| `SetupToken.SetupTokenGuard.MaybeExpireLocked` | setup_token.go:100-104 | mints exactly when a claimed token has idled out |
| `SetupToken.SetupTokenGuard.Claim` | setup_token.go:112-125 | the new state and the answer of a claim |
| `SetupToken.SetupTokenGuard.Authorized` | setup_token.go:129-134 | the new state and the answer of a check |
| `SetupToken.SetupTokenGuard.Touch` | setup_token.go:137-143 | only a claimed token's clock is reset |
| `SetupToken.OneClaimPerMint` | setup_token.go:81-143 | in every state reached from a fresh guard no mint is claimed twice and a claim hands out its mint's own epoch |
| `SetupToken.AuthorizedMeans` | setup_token.go:129-134 | in every reachable state an authorized epoch was handed out by the claim of the current mint, and its last action is within the timeout |
| `SetupToken.OldEpochIsDead` | setup_token.go:81-134 | once a newer token is minted the older epoch is never authorized again, on any run |
| `SetupToken.ClaimOutcome` | setup_token.go:112-125 | which candidates claim, which are told the mint is taken, which are neither |
| `SetupToken.IdleSessionIsDead` | setup_token.go:100-134 | a check that meets an idle claim refuses every session, and the idle session is refused ever after, on any run |
| `SetupToken.SessionSurvives` | setup_app.go:237-297 | a session claimed or touched at some instant stays authorized until the timeout after it, and for ever without a timeout, through any run of other calls |
| `SetupToken.UnclaimedTokenWaits` | setup_token.go:98-125 | until it is claimed a token never expires: whatever else is tried and however late, it is the one that claims |
| `RateLimiter.SetupRateLimiter.Allow` | setup_token.go:174-202 | the new entries and the answer |
| `RateLimiter.AllowedPerInterval` | setup_token.go:174-202 | a key is allowed at most limit * (n + 1) attempts in any interval that n spacings of min(lockout, window) cover, whatever the other keys do |
| `RateLimiter.AllowedPerLength` | setup_token.go:174-202 | in any half-open interval a key is allowed at most limit * (ceil(length / min(lockout, window)) + 1) attempts |
| `RateLimiter.KeysIndependent` | setup_token.go:174-202 | an attempt of one key changes neither another key's entry nor its next answer |
| `RateLimiter.LockoutEndsOnTime` | setup_token.go:174-202 | a refused attempt does not extend a lockout, and the first one at its end is allowed when the limit is at least 1 |
| `RateLimiter.WindowFills` | setup_token.go:174-202 | the limit is reached in every fresh window |
| `RateLimiter.WindowIsExact` | setup_token.go:174-202 | within one window of a fresh key, other keys in between, the first `limit` attempts are allowed and the next one is refused |
| `RateLimiter.SpacedAttemptsPass` | setup_token.go:191-195 | attempts of a key more than a window apart are all allowed on every run, and each begins a window with limit - 1 left |
| `RateLimiter.LockoutIsExact` | setup_token.go:184-201 | after the attempt that trips the limit, on every run, the key is refused before the lockout is over and allowed at its first attempt from then on |
| `Registration.HarnessProvider.Register` | app_build.go:253-277 | one caller: a known email makes no call, a failed one is dropped, a successful one is kept |
| `Registration.InvAlongRun` | app_build.go:253-277 | every interleaving of lookups, calls, returns and drops keeps: only the entry in the map can wait, run or have succeeded |
| `Registration.OneCallInFlight` | app_build.go:262-267 | two callers never register one email at once |
| `Registration.OneSuccessPerEmail` | app_build.go:253-277 | no email is registered successfully twice |
| `Registration.NoCallAfterSuccess` | app_build.go:253-277 | an email that was registered successfully is never called for again |
| `Registration.NobodyIsStuck` | app_build.go:243-277 | while some request has not returned some request can go on |
| `Registration.StepsAdvance` | app_build.go:243-277 | every step takes its request closer to its return and leaves the others alone |
| `Registration.ReturnsAfterACall` | app_build.go:243-277 | a caller that has returned waited for a finished registration call of its own email |
| `Registration.NextRequestTriesAgain` | app_build.go:268-276 | once a failed entry is dropped the next request gets an entry that has not failed |
| `Registration.DropGuardAlwaysHolds` | app_build.go:272-276 | the map still holds the caller's own entry when it drops it |
| `BlitzHealth.ScoringCompleteness` | blitz_source.go:345-361 | the needed and the cached final scores of a slate |
| `BlitzHealth.NothingMissing` | blitz_source.go:345-361 | the two counts agree iff every needed final score is cached |
| `BlitzHealth.GamesWithKickoff` | blitz_source.go:464-475 | exactly the placed games are kept, in order, and the others counted |
| `BlitzHealth.CountFinals` | blitz_source.go:318-326 | how many listed games are final |
| `BlitzHealth.ListedOk` | blitz_source.go:245-295 | after an answer that lists the slate: complete means expected = fetched = held, final means complete with every held game final |
| `BlitzHealth.ListedSays` | blitz_source.go:245-295 | after a listing a slate is complete and Ready iff every listed game has a kickoff, final iff all of them are final besides; its note, counts and instants |
| `BlitzHealth.UnlistedSays` | blitz_source.go:295-316 | without a listing a slate is Loading iff nothing failed and Error iff it was never fetched and is not complete |
| `BlitzHealth.UnlistedOk` | blitz_source.go:295-316 | an answer without the slate takes neither completeness nor finality away |
| `BlitzHealth.RecountedOk` | blitz_source.go:328-343 | after a recount a slate is final iff it is complete, not empty and every held game is final |
| `BlitzHealth.ReadySlate` | blitz_source.go:378-402 | a slate judged Ready is complete, has no failure pending and no final score missing |
| `BlitzHealth.JudgedSays` | blitz_source.go:378-403 | when a judgement ends Ready, when it notes missing scores, and that it changes nothing but state, note and scoring counts |
| `BlitzHealth.SuccessfulFetchHeals` | blitz_source.go:388-402 | after a box score arrives on a sound schedule only missing final scores keep a complete slate degraded |
| `BlitzHealth.ReadyFeed` | blitz_source.go:424-448 | the feed is Ready iff both slates are and the newest good answer is a day old at most |
| `BlitzHealth.FeedStates` | blitz_source.go:437-448 | when the feed reports Error, Degraded, Loading and Stale, by the states and the good answers of its slates |
| `BlitzHealth.FeedAddsUp` | blitz_source.go:403-436 | the feed's counts, claims, instants and note from those of its slates |
| `BlitzHealth.FinalFeed` | blitz_source.go:424-436 | a final feed holds every expected game of both slates, all final |
| `BlitzFetch.SelectFetchTarget` | blitz_source.go:602-654 | the pick is the first of the stalest due live games; a catch-up only when no live game is due; nothing only when neither is |
| `BlitzFetch.ChargeBudget` | blitz_source.go:659-672 | a new day resets the count, and a unit is spent iff the day has room |
| `BlitzFetch.StalestFirstIsFair` | blitz_source.go:602-634 | on every run, between two fetches of a live game every other game live at the second was fetched, failed fetches included |
| `BlitzFetch.FetchIsWanted` | blitz_source.go:602-653 | on every run each fetch is for an entered team's game: within five hours of kickoff and not final, or over and without a cached final score |
| `BlitzFetch.PollIntervalKept` | blitz_source.go:622-628 | on every run no game is fetched live within the poll interval after a fetch of it |
| `BlitzFetch.DueLiveIsFetched` | blitz_source.go:608-634 | a tick with budget left makes a live fetch whenever some live game has gone without one for the poll interval |
| `BlitzFetch.NeverFetchedFirst` | blitz_source.go:608-634 | with budget left a live game that was never fetched comes before all that were, and before such games listed after it |
| `BlitzFetch.LastFetchIsLatest` | blitz_source.go:687-693 | the recorded instant is that of the latest fetch |
| `BlitzFetch.BudgetPerDay` | blitz_source.go:659-672 | no UTC day has more fetches than the budget, and a tick with a target is refused iff its day has spent it all |
| `BlitzFetch.CatchUpsAreCached` | blitz_source.go:726-734 | a recorded catch-up day implies a cached final score |
| `BlitzFetch.MissingFinalIsDueIff` | blitz_source.go:345-361 | on every run a final game is due for catch-up iff the health report counts its score as needed and missing |
| `BlitzFetch.NeverIdleWhileOwed` | blitz_source.go:636-653 | no tick with budget left is idle while an entered team's game that is over has no cached final score |
| `BlitzFetch.CatchUpIsFirst` | blitz_source.go:636-653 | a catch-up is made for the first listed game that is over and has no cached final score |
| `BlitzFetch.NeverIdleWhileMissing` | blitz_source.go:536-549 | while the report calls a slate's scores incomplete no tick with budget left is idle |
| `BlitzFetch.CatchUpRepeatsIff` | blitz_source.go:726-734 | a catch-up is due again, that day or later, iff its box score was not final |
| `BlitzFetch.NoCatchUpAfterFinal` | blitz_source.go:636-653 | on every run no game is caught up on again after a final box score |
| `BlitzPoller.Poller.Snapshot` | blitz_source.go:140-162 | an equal copy of games, stats, version and health, in a games array and stats maps of its own |
| `BlitzPoller.Poller.JudgeSlate` | blitz_source.go:378-403 | one slate's new status, with nothing else changed |
| `BlitzPoller.Poller.RecomputeHealth` | blitz_source.go:363-449 | the recount is the summary of both judged slates and re-establishes what Ready promises |
| `BlitzFeed.RecountIsSound` | blitz_source.go:363-449 | a feed Ready after a recount has no schedule or box-score failure and no final slate lacks a score an entered player needs |
| `BlitzFeed.SplicedGames` | blitz_source.go:479-495 | the new list is in kickoff order and holds the other slates' games and the new ones |
| `BlitzPoller.Poller.ApplyGames` | blitz_source.go:479-495 | the list is replaced by a new array and the version grows by one |
| `BlitzFeed.ReplacedSlate` | blitz_source.go:479-495 | the slate then holds the new games and every other slate what it held |
| `BlitzFeed.ProbeDecides` | blitz_source.go:245-260 | a probe is decided by the first week, in the order asked, whose answer lists games |
| `BlitzFeed.ListedStatus` | blitz_source.go:252-294 | the status written for a listed slate |
| `BlitzFeed.UnlistedStatus` | blitz_source.go:295-316 | the status written for an unlisted one |
| `BlitzPoller.Poller.ResolveSlate` | blitz_source.go:245-316 | the first week that lists the slate decides its week, status, error flag and games; with none the games stay |
| `BlitzFeed.ListingKeeps` | blitz_source.go:245-316 | a listed answer keeps both slates' guarantees |
| `BlitzPoller.Poller.ProbeSlates` | blitz_source.go:197-219 | both slates are resolved from every week's answer, in either order, then judged by one recount |
| `BlitzPoller.Poller.RefreshSlate` | blitz_source.go:555-594 | once a day, through the known week or a new probe; a refused request is recorded and the games stay |
| `BlitzPoller.Poller.RefreshSchedules` | blitz_source.go:555-594 | both slates are refreshed when due, in either order |
| `BlitzPoller.Poller.LoadCachedFinals` | blitz_source.go:500-530 | the usable files' lines and final ids are merged, later lines winning |
| `BlitzFeed.BoxStatus` | blitz_source.go:739-746 | the status an answered box score writes |
| `BlitzFeed.RefreshFinality` | blitz_source.go:328-343 | the recounted status of a slate |
| `BlitzPoller.Poller.NoteAttempt` | blitz_source.go:678-686 | only the attempt instants change |
| `BlitzPoller.Poller.RecordFailure` | blitz_source.go:694-710 | the section of a failed request: the slate flagged and degraded, a recount, a new version |
| `BlitzPoller.Poller.MarkFinals` | blitz_source.go:719-725 | exactly the games with the id become final, in place |
| `BlitzFeed.MarkKeepsSlate` | blitz_source.go:719-725 | marking a game final keeps every slate's guarantee |
| `BlitzPoller.Poller.RecordBox` | blitz_source.go:712-749 | the section of a box score: merged stats, final marks, the cleared flag, the recount, a new version |
| `BlitzPoller.Poller.FetchBoxScore` | blitz_source.go:677-754 | the three sections of a fetch, failed or not, and what it adds to the ledger |
| `BlitzPoller.Poller.OnTick` | blitz_source.go:536-549 | the exact sequence of locked sections of a tick, with the pick of the fetch theorems between them; the poller stays valid and the games array is its own or a new one |
| `BlitzPoller.Poller.BootUp` | blitz_source.go:174-177 | the boot's two sections |
| `BlitzPoller.Poller.Loop` | blitz_source.go:178-191 | over any number of ticks: one trace of locked sections, and fetches that carry on one run of the fetch plan |
| `BlitzPoller.Poller.SnapshotThenLoop` | blitz_source.go:140-191 | a snapshot's games and stats stay what they were through any number of later ticks |
| `BlitzRun.SameVersionSameView` | blitz_source.go:136-162 | for any two snapshots along a run of locked sections: the version never goes back, and with one version they show the same games and stats |
| `BlitzRun.VersionBumpsIff` | blitz_source.go:197-754 | each section takes the version up iff it loads the cache, ends a fetch or places a game, and otherwise leaves games and stats alone |
| `BlitzRun.EmptyLoadBumps` | blitz_source.go:500-530 | a cache without a usable file takes the version up and changes nothing else |
| `BlitzRun.EverySnapshotIsSound` | blitz_source.go:140-754 | for every snapshot of every run of a new process: each slate holds what it promises, and a Ready report has no failure pending and lacks no final score that the entered teams of its recount need |
| `BlitzShown.EverySnapshotShows` | blitz_source.go:140-754 | every snapshot of a new process shows games of the two slates in kickoff order; one that is Ready holds every listed game, has no failure pending and lacks no final score an entered team needs |
| `BlitzShown.LatestLineShows` | blitz_source.go:500-754 | in every snapshot of every run a player's line under a slate is the one of the latest box score or cached file that names the player there |
| `BlitzShown.SectionLine` | blitz_source.go:500-754 | a locked section changes exactly the lines it names, each to the line named |
| `BlitzShown.CachedFinalsAre` | blitz_source.go:500-754 | along every run a final score counts as cached iff a cached file or a box score has brought it |
| `BlitzShown.LatestListingShows` | blitz_source.go:479-754 | in every snapshot of every run a slate shows exactly the games its latest listing placed, those final that the listing or a later box score found to be |
| `BlitzShown.FlagsAreLatest` | blitz_source.go:245-754 | along every run a slate counts as failing exactly as the latest schedule answer, and the latest box score, for it has said |
| `BlitzShown.NotReadyWhileFailing` | blitz_source.go:378-754 | no snapshot reports Ready from a failed answer of a slate to the next one of its kind |
| `BlitzShown.FailureShows` | blitz_source.go:694-710 | a failed box score shows at once and takes back nothing that was fetched |
| `BlitzShown.RefusalShows` | blitz_source.go:562-580 | a refused request for a slate whose week is known shows at once and leaves games and stats alone |
| `BlitzShown.GoodBoxHeals` | blitz_source.go:712-749 | a good box score leaves a complete slate with a sound schedule Ready, or degraded for missing final scores and noted so |
| `BlitzShown.RefreshesAreADayApart` | blitz_source.go:555-562 | along every run a slate is refreshed no sooner than a day after it was last asked for |
| `BlitzShown.DueSlateIsRefreshed` | blitz_source.go:555-562 | and every tick after that day refreshes it |
| `BlitzShown.FoundWeekIsAsked` | blitz_source.go:555-594 | once a probe has found a slate in a week, every later refresh asks for that week |
| `BlitzRun.SilentReportIff` | blitz_source.go:568-686 | the health report changes under one version iff the section is a new attempt or a schedule answer that places no game |
| `BlitzRun.ReportsDifferOnlySilently` | blitz_source.go:568-686 | two snapshots with one version and different reports have such a section between them |
| `BlitzRun.AttemptIsSilent` | blitz_source.go:677-686 | the attempt of a fetch changes the report and not the version |
| `BlitzRun.TickIsStep` | blitz_source.go:536-549 | the fetch side of every tick is one step of the runs the fetch theorems range over |
| `BlitzPoller.Poller.Sunset` | blitz_source.go:759-773 | true iff a pre3 kickoff is known and every one is 48 hours past |
| `SnapshotMemo.Freshen` | live_scoring.go:119-139 | the pre-scan path and the copying path give the same snapshot, with closed windows cleared |
| `SnapshotMemo.FreshenedShows` | live_scoring.go:119-139 | a reader sees every game, in progress iff it is and it is final, its kickoff is unknown or its five hours are not over |
| `SnapshotMemo.FreshenAgain` | live_scoring.go:86-139 | freshening a freshened copy later equals freshening the original later |
| `SnapshotMemo.VersionedSnapshot.Get` | live_scoring.go:181-195 | the memo's answer and new state |
| `SnapshotMemo.NeverStaleNeverAhead` | live_scoring.go:181-195 | with the poller moving at any instant, a returned snapshot is one it gave out, no older than the version read and no newer than the call |
| `SnapshotMemo.ReturnsNeverGoBack` | live_scoring.go:181-195 | successive returns never go back |
| `SnapshotMemo.FreshenedReadIsCurrent` | live_scoring.go:86-139 | a memoized copy freshened by the reader's clock equals what the poller holds at that version, freshened by that clock |
| `SnapshotMemo.MemoAloneGoesStale` | live_scoring.go:95-108 | without freshening the memo can show a game in progress after its window closed |
| `SeasonHist.ScoringValuesFingerprint` | season_hist.go:250-261 | the text is the same for every order in which the map is walked |
| `SeasonHist.FingerprintDecides` | season_hist.go:240-261 | two scoring tables have one fingerprint iff they are equal, when their numbers print apart |
| `SeasonHist.CurrentScoringValues` | internal/league/breakdown.go:270-281 | the rules' defaults overridden by the stored values of known rules, in any walk order |
| `SeasonHist.LiveFingerprintDecides` | season_hist.go:240-261 | two states of the league have one fingerprint iff they score every rule alike, whatever else the store holds |
| `SeasonHist.Accumulate` | season_hist.go:170-197 | each player's totals are the sum of that player's house-position rows, weeks counted once, position and season of the first row |
| `SeasonHist.SeasonAddsUp` | season_hist.go:170-197 | each of the twelve figures of a player's season is the sum over that player's house-position rows, and its weeks are theirs |
| `SeasonHist.BuildIndex` | season_hist.go:166-203 | a line for exactly the players with such rows |
| `SeasonHist.LinesAreIndependent` | season_hist.go:166-203 | a player's line depends on that player's rows alone |
| `SeasonHist.SeasonHistCache.Lookup` | season_hist.go:109-136 | the answer is that of a build under the caller's season and values on the rows the cached build read; an empty index is never reused |
| `SeasonFetch.FilterPlayerStats` | internal/openstats/service.go:303-334 | the first matching rows up to the clamped limit, under all four filters |
| `SeasonFetch.FilterAnswers` | internal/openstats/service.go:303-334 | the answer holds only rows that meet every filter set, at most 100, or as many as asked for up to 1000, and all of them when fewer |
| `SeasonFetch.FetchWeekRowsCapped` | matchup_cache.go:314-324 | the rows of one query and whether it warns |
| `SeasonFetch.WarnedAndDropped` | matchup_cache.go:299-324 | warned iff 1000 or more rows match, dropped iff more than 1000 do |
| `SeasonFetch.FullAnswerWarns` | matchup_cache.go:299-324 | exactly 1000 matching rows: warned, none dropped |
| `SeasonFetch.ScheduleTeams` | matchup_cache.go:329-345 | the same list for every order in which the set of names is walked |
| `SeasonFetch.ScheduledOnce` | matchup_cache.go:326-345 | that list is sorted and holds exactly the non-empty sides of the games, each once |
| `SeasonFetch.FetchSeasonPlayerStats` | matchup_cache.go:284-297 | the concatenation over weeks 1 to 18 and the scheduled teams, or whole weeks without a schedule |
| `SeasonFetch.FetchedInWeekOrder` | matchup_cache.go:284-297 | the fetched rows come week by week and are the source's own |
| `SeasonFetch.SeasonCounts` | matchup_cache.go:284-297 | how often each row is fetched: its multiplicity times the team filters that let it through |
| `SeasonFetch.PagedIsOnePassIff` | matchup_cache.go:262-297 | the fetch is one pass over the rows up to order iff each wanted row is asked for once and no other is |
| `SeasonFetch.ScheduledFetchIsComplete` | matchup_cache.go:262-297 | with a trimmed upper-case schedule no row of a scheduled team is missing or repeated |
| `SeasonFetch.UnscheduledFetchIsComplete` | matchup_cache.go:277-291 | without a schedule every team's rows are fetched once |
| `SeasonFetch.ScheduledFetchIff` | internal/openstats/parser.go:55-58 | for trimmed names the fetch is one pass over the named teams' rows iff no team with rows is spelled in two ways |
| `SeasonFetch.TwoSpellingsRepeat` | internal/openstats/service.go:312-324 | a game that spells one team in two ways schedules both, and every row of the team is fetched twice |
| `DraftTape.FilterTapeRoundsSince` | app/draft/fragment.go:646-663 | the kept rounds and picks and which headers show |
| `DraftTape.FilterKeepsPicksAbove` | app/draft/fragment.go:630-663 | the filter keeps exactly the picks above the cursor, in order |
| `DraftTape.TapeRoundsHavePick` | app/draft/fragment.go:550-559 | whether some round holds the pick |
| `DraftTape.Fragment.AttachSince` | app/draft/fragment.go:344-374 | which queries filter, and to what |
| `DraftTape.Fragment.AttachView` | app/draft/fragment.go:401-481 | the view, the cap and the older-rounds flag, with the pick that lifts the cap, and the query the tape region refreshes from |
| `DraftTape.Fragment.AttachPick` | app/draft/fragment.go:582-614 | at most the first row with the number is opened, and nothing else changes |
| `DraftTape.Fragment.Render` | app/draft/fragment.go:202-204 | the three steps in the handler's order |
| `DraftTape.SincePollLosesNothing` | app/draft/fragment.go:344-374 | a poll at cursor n, or at an empty one for 0, shows exactly the picks above n, without the row on the clock and the empty-tape message: the cap never touches it |
| `DraftTape.BadSinceIsFullRender` | app/draft/fragment.go:344-358 | a missing, negative or malformed cursor renders the full pane |
| `DraftTape.ViewLinkShowsView` | app/draft/fragment.go:616-628 | a link to a view shows that view, in any case and with white space around it |
| `DraftTape.OlderRoundsIff` | app/draft/fragment.go:418-453 | on a full render the flag is set iff some round was left out, and three rounds or all of them are shown |
| `DraftTape.ShownRounds` | app/draft/fragment.go:435-453 | a full render shows the newest rounds, down to a pick it names, all of them when asked, and never more than three for any other reason |
| `DraftTape.RefreshShowsTheSame` | app/draft/fragment.go:457-481 | a refresh from the tape region's own URL shows what the request showed: the same view, rounds and open row |
| `DraftTape.OpenRowIff` | app/draft/fragment.go:561-614 | on every request a row comes out open iff the request names its number and details can be had; an open row carries its own details and a link that closes it, and every other row is unchanged |
| `DraftTape.NamedPickOpensAlone` | app/draft/fragment.go:561-614 | a full render naming an existing pick shows that row, with its number and card, open with its details, and no other row open |
| `TapePolls.TapeRoundsProps` | app/draft/page.server.go:650-673 | every round with its header, every row closed |
| `TapePolls.LeagueRoundsAreFullTape` | internal/league/draft_history.go:251-272 | the league's rounds, grouped by round number and mapped, are the full tape of the poll theorems |
| `TapePolls.FullTapeLists` | app/draft/page.server.go:650-673 | the full tape lists every pick once, newest first, closed and without details |
| `TapePolls.AnswerCarries` | app/draft/fragment.go:630-663 | one answer carries exactly the picks above its cursor and the headers not yet seen |
| `TapePolls.ChainCarriesEverythingOnce` | app/draft/fragment.go:323-374 | over any chain of polls on a growing draft no pick is lost or repeated and each header arrives once |
| `TapePolls.OnePoll` | app/draft/fragment.go:634-663 | when prepending one answer gives the full tape |
| `TapePolls.ChainIsFullTapeIff` | app/draft/fragment.go:323-374 | the rows held equal the full tape iff every poll that brought something had its cursor at a round's end |
| `TapePolls.CardAboveItsHeader` | app/draft/fragment.go:630-663 | two teams polled after pick 1: the rows held and the full tape, which differ |
| `Stylesheet.IndexOfMark` | stylesheet_asset.go:97-106 | the first closing mark, or that there is none |
| `Stylesheet.OneTurn` | stylesheet_asset.go:83-108 | what one turn of the loop reads and writes |
| `Stylesheet.Scan` | stylesheet_asset.go:80-109 | the scan returns the source without its comment pieces |
| `Stylesheet.SegmentationIsUnique` | stylesheet_asset.go:76-110 | every source has one segmentation into strings, comments and other characters |
| `Stylesheet.SegmentsSegment` | stylesheet_asset.go:76-110 | and it has one |
| `Stylesheet.StrippingRemovesComments` | stylesheet_asset.go:76-110 | stripping any segmentation leaves its non-comment pieces unchanged and in order |
| `Stylesheet.CommentGoes` | stylesheet_asset.go:80-107 | a comment goes whatever it holds and whatever follows, and one never closed goes to the end |
| `Stylesheet.StringStays` | stylesheet_asset.go:80-107 | a string in either kind of quotes stays, whatever comment marks it holds |
| `StylesheetLines.CollapseBlankLines` | stylesheet_asset.go:114-125 | the joined non-blank lines with one final newline |
| `StylesheetLines.CollapseKeepsLines` | stylesheet_asset.go:112-125 | the result's lines are the non-blank lines in order, trailing blanks removed |
| `StylesheetLines.CollapseIsIdempotent` | stylesheet_asset.go:112-125 | collapsing twice changes nothing |
| `StylesheetLines.StripStylesheetComments` | stylesheet_asset.go:80-110 | the whole transformation |
| `StylesheetLines.CollapseKeepsComments` | stylesheet_asset.go:109-125 | collapsing lines neither opens a comment nor removes one |
| `StylesheetLines.StripTwiceIff` | stylesheet_asset.go:80-125 | when the whole transformation is idempotent |
| `StylesheetLines.CommentBetweenMarks` | stylesheet_asset.go:80-125 | every comment between a / and a * is an input that a second strip changes |
| `WizardForms.LinesFromTextarea` | wizard_render.go:141-150 | the trimmed non-empty lines in order |
| `WizardForms.LinesFromMap` | wizard_steps.go:146-160 | one KEY=N line for each key, keys sorted |
| `WizardForms.ParseKeyEqualsInt` | wizard_steps.go:166-184 | malformed lines skipped, a later line winning, nothing read giving nil |
| `WizardForms.KeyLinesRoundTripIff` | wizard_steps.go:144-184 | parsing the printed map restores it iff it is not empty and its keys are trimmed, upper-case and free of '=' and newlines, its values within 64 bits |
| `WizardForms.TeamsToTextarea` | wizard_steps.go:224-237 | one comma-joined line for each team, division and tone only when needed |
| `WizardForms.TeamsMutate` | wizard_steps.go:239-266 | the teams read from the form's lines |
| `WizardForms.TeamLinesRoundTripIff` | wizard_steps.go:224-266 | parsing the printed teams restores them iff every field is trimmed and free of commas and newlines |

## Left out

- HTTP handlers, HTML and GoSX rendering, sessions, OAuth, mail, push and uploads: input and output around the modelled code.
- internal/league, internal/fantasy, internal/livescore and internal/openstats beyond the cited lines: they appear as parameters with the assumptions above.
- WebSocket delivery: a broadcast reaches every connected client, and a dropped client is a leave. The context that ends the poller's loop and the recovery from panics are not modelled.
- Directory fsync: a rename is atomic; nothing is claimed about power loss.
- SetupCommit.Machine.Mint: of a link's row only its address, token and liveness are modelled.
- CommitRuns.CommitIsCrashSafe: the boot decision is modelled for a database without members and picks, the only kind a wizard meets.
- BlitzPoller.Poller.Snapshot: the nested stats maps are one object, so sharing of a single inner map is not told apart from sharing of all.
- SeasonHist.Accumulate: totals are reals, so rounding is not modelled, and the rendered line is a parameter.
- DraftTape.Fragment.AttachView: of the links it prints only the query of the tape region's own URL is modelled.
- TapePolls.TapeRoundsProps: link targets, bind keys and the live counters of a header are left out.
- Telling requests that share a failed registration call that it failed: the code does not do it.
- stripFeatureHubPreload, the page-data copies of app/admin, app/board and app/help, the matchup snapshot cache and the backup scheduler: long but shallow.
