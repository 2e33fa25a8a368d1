/** Whole lives of a new instance: attempts at the setup wizard's commit, each stopped anywhere,
    crashes and restarts in any order, and what the files, the marker, the invite list and the
    links shown are worth after them. */
module CommitRuns {
  import opened Text
  import opened RuntimeEnv
  import opened SetupCommit

  /** Completed: the commit has succeeded and the process only serves its completion page. */
  datatype Boot = Setup | Completed | Configured | FailClosed

  /** `envFrom` and `leagueFrom` number the attempts that wrote the two files; `lost` says that,
      since league.json was written, the process has stopped with a failed write of the invite
      list outstanding. */
  datatype Instance = Instance(
    world: World, boot: Boot, attempts: seq<Attempt>, envFrom: nat, leagueFrom: nat, lost: bool)

  datatype Event = Commit(attempt: Attempt, reached: Progress, crashed: bool) | Restart

  function Fresh(): Instance
  {
    Instance(World(map[], {}, {}, false, None, map[]), Setup, [], 0, 0, false)
  }

  /** DetermineBootState, for a database without members and picks. */
  function BootOf(w: World): Boot
  {
    if LEAGUE_FILE in w.files then Configured else if w.marker.Some? then FailClosed else Setup
  }

  function Restarted(i: Instance): Instance
  {
    var w := i.world.(invited := i.world.durable, dirty := false);
    i.(world := w, boot := BootOf(w), lost := i.lost || i.world.dirty)
  }

  predicate Enabled(h: Host, i: Instance, e: Event)
  {
    e.Restart? || (i.boot == Setup && Possible(h, e.attempt, e.reached))
  }

  function Committed(h: Host, i: Instance, a: Attempt, p: Progress): Instance
    requires Possible(h, a, p)
  {
    var wroteLeague := p.LeagueWritten? || p.Finished?;
    Instance(After(h, i.world, a, p),
             if p.Finished? then Completed else i.boot,
             i.attempts + [a],
             if p.Refused? || p.Validated? then i.envFrom else |i.attempts|,
             if wroteLeague then |i.attempts| else i.leagueFrom,
             if wroteLeague then false else i.lost)
  }

  function Next(h: Host, i: Instance, e: Event): Instance
    requires Enabled(h, i, e)
  {
    if e.Restart? then Restarted(i)
    else
      var j := Committed(h, i, e.attempt, e.reached);
      if e.crashed then Restarted(j) else j
  }

  ghost predicate Runs(h: Host, i: Instance, events: seq<Event>, j: Instance)
    decreases |events|
  {
    if events == [] then i == j
    else Enabled(h, i, events[0]) && Runs(h, Next(h, i, events[0]), events[1..], j)
  }

  predicate FilesOk(h: Host, i: Instance)
  {
    && i.world.files.Keys <= {ENV_FILE, LEAGUE_FILE}
    && (ENV_FILE in i.world.files ==>
          i.envFrom < |i.attempts| && i.world.files[ENV_FILE] == EnvContent(i.attempts[i.envFrom]))
    && (LEAGUE_FILE in i.world.files ==>
          && ENV_FILE in i.world.files && i.leagueFrom <= i.envFrom
          && i.attempts[i.leagueFrom].draft.encoded == Some(i.world.files[LEAGUE_FILE])
          && h.valid(i.world.files[LEAGUE_FILE]))
  }

  predicate InvitesOk(h: Host, i: Instance)
  {
    && i.world.durable <= i.world.invited
    && (!i.world.dirty ==> i.world.durable == i.world.invited)
    && (LEAGUE_FILE in i.world.files && !i.lost ==>
          i.leagueFrom < |i.attempts| && AllAdmitted(h, i.attempts[i.leagueFrom], i.world.invited))
  }

  predicate AllAdmitted(h: Host, a: Attempt, invited: set<string>)
  {
    forall k :: 0 <= k < |Recipients(a.draft.members)| ==> h.admission(Recipients(a.draft.members)[k]) in invited
  }

  predicate MarkerOk(h: Host, i: Instance)
  {
    && (i.world.marker.Some? ==>
          LEAGUE_FILE in i.world.files &&
          i.world.marker.value.configSHA256 == h.sha256(i.world.files[LEAGUE_FILE]))
    && (i.boot == Setup ==> i.world.marker.None?)
    && (i.boot == Completed || i.boot == Configured ==> LEAGUE_FILE in i.world.files)
    && i.boot != FailClosed
  }

  /** Both files are absent or some attempt's complete bytes; a present league.json was
      validated, its members are admitted and runtime.env is from its attempt or a later one;
      a marker names the present league.json. */
  predicate Inv(h: Host, i: Instance)
  {
    FilesOk(h, i) && InvitesOk(h, i) && MarkerOk(h, i)
  }

  lemma {:induction false} InviteAllAdmits(h: Host, w: World, emails: seq<string>, tokens: seq<string>)
    requires |emails| <= |tokens|
    requires w.durable <= w.invited && (!w.dirty ==> w.durable == w.invited)
    ensures var after := InviteAll(h, w, emails, tokens);
            && after.files == w.files && after.marker == w.marker
            && after.durable <= after.invited && (!after.dirty ==> after.durable == after.invited)
            && w.invited <= after.invited
            && forall k :: 0 <= k < |emails| ==> h.admission(emails[k]) in after.invited
  {
    if emails != [] {
      InviteAllAdmits(h, w, emails[..|emails| - 1], tokens);
    }
  }

  /** What an attempt does to the files, the marker and the lists. */
  lemma AfterIs(h: Host, w: World, a: Attempt, p: Progress)
    requires Possible(h, a, p) && w.durable <= w.invited && (!w.dirty ==> w.durable == w.invited)
    ensures var t := After(h, w, a, p);
            && t.files == (if p.Refused? || p.Validated? then w.files
                           else if p.Inviting? then w.files[ENV_FILE := EnvContent(a)]
                           else w.files[ENV_FILE := EnvContent(a)][LEAGUE_FILE := a.draft.encoded.value])
            && t.marker == (if p.Finished? then Some(Marker(a.draft.commissioner, h.sha256(a.draft.encoded.value)))
                            else w.marker)
            && w.invited <= t.invited && t.durable <= t.invited && (!t.dirty ==> t.durable == t.invited)
            && (p.LeagueWritten? || p.Finished? ==> AllAdmitted(h, a, t.invited))
  {
    var emails := Recipients(a.draft.members);
    InviteAllAdmits(h, WithEnv(w, a), if p.Inviting? then emails[..p.done] else emails, a.tokens);
  }

  lemma CommittedInv(h: Host, i: Instance, a: Attempt, p: Progress)
    requires Inv(h, i) && i.boot == Setup && Possible(h, a, p)
    ensures Inv(h, Committed(h, i, a, p))
  {
    AfterIs(h, i.world, a, p);
    CommittedFiles(h, i, a, p);
  }

  lemma CommittedFiles(h: Host, i: Instance, a: Attempt, p: Progress)
    requires FilesOk(h, i) && InvitesOk(h, i) && Possible(h, a, p)
    ensures FilesOk(h, Committed(h, i, a, p))
  {
    AfterIs(h, i.world, a, p);
  }

  lemma NextInv(h: Host, i: Instance, e: Event)
    requires Inv(h, i) && Enabled(h, i, e)
    ensures Inv(h, Next(h, i, e))
  {
    if e.Commit? {
      CommittedInv(h, i, e.attempt, e.reached);
    }
  }

  lemma {:induction false} InvAlongRun(h: Host, i: Instance, events: seq<Event>, j: Instance)
    requires Inv(h, i) && Runs(h, i, events, j)
    ensures Inv(h, j)
    decreases |events|
  {
    if events != [] {
      NextInv(h, i, events[0]);
      InvAlongRun(h, Next(h, i, events[0]), events[1..], j);
    }
  }

  /** The guarantee over every sequence of attempts, crashes and restarts of a new instance. */
  lemma CommitIsCrashSafe(h: Host, events: seq<Event>, j: Instance)
    requires Runs(h, Fresh(), events, j)
    ensures Inv(h, j)
  {
    InvAlongRun(h, Fresh(), events, j);
  }

  /** An uninterrupted attempt with an acceptable draft completes from whatever earlier
      attempts left, and the next boot is CONFIGURED with that draft's two files. */
  lemma RetryCompletes(h: Host, i: Instance, a: Attempt)
    requires Inv(h, i) && i.boot == Setup && Possible(h, a, Finished)
    ensures var j := Next(h, i, Commit(a, Finished, false));
            && j.boot == Completed && Restarted(j).boot == Configured
            && j.world.files == map[ENV_FILE := EnvContent(a), LEAGUE_FILE := a.draft.encoded.value]
            && j.world.marker == Some(Marker(a.draft.commissioner, h.sha256(a.draft.encoded.value)))
            && AllAdmitted(h, a, j.world.invited)
  {
    AfterIs(h, i.world, a, Finished);
  }

  predicate AnyNew(h: Host, w: World, emails: seq<string>)
  {
    exists k :: 0 <= k < |emails| && h.admission(emails[k]) !in w.invited
  }

  /** One new address writes the whole list; with none, the list is not written. */
  lemma {:induction false} InviteAllWrites(h: Host, w: World, emails: seq<string>, tokens: seq<string>)
    requires |emails| <= |tokens|
    ensures var after := InviteAll(h, w, emails, tokens);
            if AnyNew(h, w, emails) then after.durable == after.invited && w.invited <= after.invited && !after.dirty
            else after == w.(links := after.links)
  {
    if emails != [] {
      var n := |emails| - 1;
      InviteAllWrites(h, w, emails[..n], tokens);
      assert AnyNew(h, w, emails) <==> AnyNew(h, w, emails[..n]) || h.admission(emails[n]) !in w.invited by {
        assert forall k :: 0 <= k < n ==> emails[..n][k] == emails[k];
      }
    }
  }

  /** The admissions of an attempt that has written league.json survive the restart exactly when
      the attempt met an address that was new in memory, or all its addresses were in the database
      already. */
  lemma AdmissionsSurviveIff(h: Host, i: Instance, a: Attempt, p: Progress)
    requires Inv(h, i) && i.boot == Setup && Possible(h, a, p) && (p.LeagueWritten? || p.Finished?)
    ensures AllAdmitted(h, a, Restarted(Committed(h, i, a, p)).world.invited) <==>
            AnyNew(h, i.world, Recipients(a.draft.members)) || AllAdmitted(h, a, i.world.durable)
    ensures AnyNew(h, i.world, Recipients(a.draft.members)) ==> !Restarted(Committed(h, i, a, p)).lost
  {
    var emails := Recipients(a.draft.members);
    var withEnv := WithEnv(i.world, a);
    InviteAllWrites(h, withEnv, emails, a.tokens);
    InviteAllAdmits(h, withEnv, emails, a.tokens);
  }

  lemma {:induction false} InviteAllKeepsDurable(h: Host, w: World, emails: seq<string>, tokens: seq<string>)
    requires |emails| <= |tokens| && w.durable <= w.invited
    ensures var after := InviteAll(h, w, emails, tokens); w.durable <= after.durable <= after.invited
  {
    if emails != [] {
      InviteAllKeepsDurable(h, w, emails[..|emails| - 1], tokens);
    }
  }

  lemma DurableKept(h: Host, i: Instance, e: Event)
    requires Inv(h, i) && Enabled(h, i, e)
    ensures i.world.durable <= Next(h, i, e).world.durable
  {
    if e.Commit? {
      var emails := Recipients(e.attempt.draft.members);
      InviteAllKeepsDurable(h, WithEnv(i.world, e.attempt),
                            if e.reached.Inviting? then emails[..e.reached.done] else emails, e.attempt.tokens);
    }
  }

  lemma {:induction false} DurableAlongRun(h: Host, i: Instance, events: seq<Event>, j: Instance)
    requires Inv(h, i) && Runs(h, i, events, j)
    ensures i.world.durable <= j.world.durable
    decreases |events|
  {
    if events != [] {
      NextInv(h, i, events[0]);
      DurableKept(h, i, events[0]);
      DurableAlongRun(h, Next(h, i, events[0]), events[1..], j);
    }
  }

  /** And admissions that survive one restart survive every later run. */
  lemma AdmissionsLast(h: Host, i: Instance, a: Attempt, p: Progress, events: seq<Event>, j: Instance)
    requires Inv(h, i) && i.boot == Setup && Possible(h, a, p) && (p.LeagueWritten? || p.Finished?)
    requires AnyNew(h, i.world, Recipients(a.draft.members)) || AllAdmitted(h, a, i.world.durable)
    requires Runs(h, Committed(h, i, a, p), events, j)
    ensures AllAdmitted(h, a, Restarted(j).world.invited)
  {
    AdmissionsSurviveIff(h, i, a, p);
    CommittedInv(h, i, a, p);
    DurableAlongRun(h, Committed(h, i, a, p), events, j);
  }

  lemma FailedWriteWorld(h: Host, a: Attempt)
    requires Possible(h, a, Finished) && |Recipients(a.draft.members)| == 1
    ensures Possible(h, a, Inviting(0, InMemoryOnly))
    ensures After(h, Fresh().world, a, Inviting(0, InMemoryOnly)) ==
            World(map[ENV_FILE := EnvContent(a)], {h.admission(Recipients(a.draft.members)[0])}, {}, true, None, map[])
  {
    var emails := Recipients(a.draft.members);
    assert Mintable(h, a, emails[0]) && emails[..0] == [];
    assert WithEnv(Fresh().world, a).files == map[ENV_FILE := EnvContent(a)];
  }

  lemma RetrySkipsTheWrite(h: Host, i: Instance, a: Attempt)
    requires i.boot == Setup && Possible(h, a, Finished) && |Recipients(a.draft.members)| == 1
    requires h.admission(Recipients(a.draft.members)[0]) in i.world.invited && i.world.durable == {}
    ensures var done := Next(h, i, Commit(a, Finished, false));
            done.boot == Completed && AllAdmitted(h, a, done.world.invited) &&
            Restarted(done).boot == Configured && !AllAdmitted(h, a, Restarted(done).world.invited)
  {
    var done := Next(h, i, Commit(a, Finished, false));
    InviteAllWrites(h, WithEnv(i.world, a), Recipients(a.draft.members), a.tokens);
    assert Restarted(done).world.invited == done.world.durable == {};
    assert Restarted(done).world.files == done.world.files;
  }

  lemma AfterFailedWrite(h: Host, a: Attempt)
    requires Possible(h, a, Finished) && |Recipients(a.draft.members)| == 1
    ensures var failed := Commit(a, Inviting(0, InMemoryOnly), false);
            Enabled(h, Fresh(), failed) &&
            var i := Next(h, Fresh(), failed);
            i.boot == Setup && i.world.durable == {} &&
            i.world.invited == {h.admission(Recipients(a.draft.members)[0])}
  {
    FailedWriteWorld(h, a);
  }

  /** So the promise can fail: when the write for the only recipient fails, a retry finds
      the address in memory, skips the write and completes; the restart forgets the address. */
  lemma RetryCanLoseAnInvite(h: Host, a: Attempt)
    requires Possible(h, a, Finished) && |Recipients(a.draft.members)| == 1
    ensures var failed := Commit(a, Inviting(0, InMemoryOnly), false);
            Enabled(h, Fresh(), failed) &&
            var i := Next(h, Fresh(), failed);
            Enabled(h, i, Commit(a, Finished, false)) &&
            var done := Next(h, i, Commit(a, Finished, false));
            done.boot == Completed && AllAdmitted(h, a, done.world.invited) &&
            Restarted(done).boot == Configured && !AllAdmitted(h, a, Restarted(done).world.invited)
  {
    AfterFailedWrite(h, a);
    RetrySkipsTheWrite(h, Next(h, Fresh(), Commit(a, Inviting(0, InMemoryOnly), false)), a);
  }

  // ---------------------------------------------------------------- who is let in

  lemma {:induction false} InviteAllAddresses(h: Host, a: Attempt, w: World, emails: seq<string>, tokens: seq<string>)
    requires |emails| <= |tokens| && AllMintable(h, a, emails)
    ensures var after := InviteAll(h, w, emails, tokens);
            forall e :: e in after.invited || e in after.links ==> '@' in e || e in w.invited || e in w.links
  {
    if emails != [] {
      var n := |emails| - 1;
      assert Mintable(h, a, emails[n]);
      InviteAllAddresses(h, a, w, emails[..n], tokens);
    }
  }

  /** Wherever an attempt stops: only addresses are let in or get a link, and nothing in the store
      changes when it takes no writes. */
  lemma AttemptLetsIn(h: Host, w: World, a: Attempt, p: Progress)
    requires Possible(h, a, p)
    ensures var after := After(h, w, a, p);
            && (forall e :: e in after.invited || e in after.links ==> '@' in e || e in w.invited || e in w.links)
            && (!a.writable ==>
                  after.invited == w.invited && after.durable == w.durable && after.links == w.links &&
                  after.marker == w.marker)
  {
    var emails := Recipients(a.draft.members);
    if p.Inviting? || p.LeagueWritten? || p.Finished? {
      var through := if p.Inviting? then emails[..p.done] else emails;
      assert AllMintable(h, a, through);
      assert through == [] || Mintable(h, a, through[0]);
      InviteAllAddresses(h, a, WithEnv(w, a), through, a.tokens);
    }
  }

  ghost predicate OnlyAddresses(w: World)
  {
    forall e :: e in w.invited || e in w.durable || e in w.links ==> '@' in e
  }

  lemma NextLetsIn(h: Host, i: Instance, e: Event)
    requires Inv(h, i) && OnlyAddresses(i.world) && Enabled(h, i, e)
    ensures OnlyAddresses(Next(h, i, e).world)
  {
    if e.Commit? {
      AttemptLetsIn(h, i.world, e.attempt, e.reached);
      CommittedInv(h, i, e.attempt, e.reached);
    }
  }

  /** Over every run of a new instance nobody without an address is let in. */
  lemma {:induction false} OnlyAddressesAreInvited(h: Host, i: Instance, events: seq<Event>, j: Instance)
    requires Inv(h, i) && OnlyAddresses(i.world) && Runs(h, i, events, j)
    ensures OnlyAddresses(j.world)
    decreases |events|
  {
    if events != [] {
      NextInv(h, i, events[0]);
      NextLetsIn(h, i, events[0]);
      OnlyAddressesAreInvited(h, Next(h, i, events[0]), events[1..], j);
    }
  }

  // ---------------------------------------------------------------- the links that are shown

  /** Whether the token opens the link of the address. */
  predicate Live(h: Host, w: World, email: string, token: string)
  {
    h.admission(email) in w.links && w.links[h.admission(email)] == token
  }

  /** A later recipient with the same address in the store. */
  predicate NamedAgain(h: Host, emails: seq<string>, k: nat)
    requires k < |emails|
  {
    exists j :: k < j < |emails| && h.admission(emails[j]) == h.admission(emails[k])
  }

  lemma NamedAgainGrows(h: Host, emails: seq<string>, k: nat)
    requires k + 1 < |emails|
    ensures var n := |emails| - 1;
            NamedAgain(h, emails, k) <==>
            NamedAgain(h, emails[..n], k) || h.admission(emails[n]) == h.admission(emails[k])
  {
    var n := |emails| - 1;
    assert forall j :: 0 <= j < n ==> emails[..n][j] == emails[j];
  }

  lemma {:induction false} LiveAfterAll(h: Host, w: World, emails: seq<string>, tokens: seq<string>, k: nat)
    requires k < |emails| <= |tokens| && Distinct(tokens)
    ensures Live(h, InviteAll(h, w, emails, tokens), emails[k], tokens[k]) <==> !NamedAgain(h, emails, k)
  {
    var n := |emails| - 1;
    if k < n {
      LiveAfterAll(h, w, emails[..n], tokens, k);
      NamedAgainGrows(h, emails, k);
    }
  }

  /** A link that the completion page shows opens its recipient's invite exactly when no later line
      of the member list names the same address: that line's link has revoked it. */
  lemma ShownLinkIsLiveIff(h: Host, i: Instance, a: Attempt, k: nat)
    requires i.boot == Setup && Possible(h, a, Finished) && Distinct(a.tokens)
    requires k < |Recipients(a.draft.members)| && '/' !in a.tokens[k]
    ensures |LinksOf(a)| == |Recipients(a.draft.members)|
    ensures var w, link := Next(h, i, Commit(a, Finished, false)).world, LinksOf(a)[k];
            && link.email == Recipients(a.draft.members)[k]
            && (Live(h, w, link.email, LastPart(link.url)) <==> !NamedAgain(h, Recipients(a.draft.members), k))
  {
    var base := LinkShown(a, k);
    LiveAfterAll(h, WithEnv(i.world, a), Recipients(a.draft.members), a.tokens, k);
  }

  lemma {:induction false} LinksOfOthersStay(h: Host, w: World, emails: seq<string>, tokens: seq<string>, e: string)
    requires |emails| <= |tokens| && forall k :: 0 <= k < |emails| ==> h.admission(emails[k]) != e
    ensures var links := InviteAll(h, w, emails, tokens).links;
            (e in links <==> e in w.links) && (e in links ==> links[e] == w.links[e])
  {
    if emails != [] {
      LinksOfOthersStay(h, w, emails[..|emails| - 1], tokens, e);
    }
  }

  /** A link from an earlier attempt stays live exactly when the completing one does not name its
      address. */
  lemma EarlierLinkIsLiveIff(h: Host, i: Instance, a: Attempt, email: string, token: string)
    requires i.boot == Setup && Possible(h, a, Finished) && Live(h, i.world, email, token) && token !in a.tokens
    ensures Live(h, Next(h, i, Commit(a, Finished, false)).world, email, token) <==>
            forall k :: 0 <= k < |Recipients(a.draft.members)| ==>
              h.admission(Recipients(a.draft.members)[k]) != h.admission(email)
  {
    var emails := Recipients(a.draft.members);
    assert Next(h, i, Commit(a, Finished, false)).world.links ==
           InviteAll(h, WithEnv(i.world, a), emails, a.tokens).links;
    if k :| 0 <= k < |emails| && h.admission(emails[k]) == h.admission(email) {
      LatestLink(h, WithEnv(i.world, a), emails, a.tokens, k);
      assert !Live(h, Next(h, i, Commit(a, Finished, false)).world, email, token);
      assert h.admission(Recipients(a.draft.members)[k]) == h.admission(email);
    } else {
      LinksOfOthersStay(h, WithEnv(i.world, a), emails, a.tokens, h.admission(email));
    }
  }

  lemma {:induction false} LatestLink(h: Host, w: World, emails: seq<string>, tokens: seq<string>, k: nat)
    requires k < |emails| <= |tokens|
    ensures var links := InviteAll(h, w, emails, tokens).links;
            h.admission(emails[k]) in links && links[h.admission(emails[k])] in tokens
  {
    var n := |emails| - 1;
    if k < n {
      LatestLink(h, w, emails[..n], tokens, k);
    }
  }

  /** Two spellings of one address: the first of the two links shown is dead. */
  lemma SecondSpellingKillsTheFirst(h: Host, i: Instance, a: Attempt)
    requires i.boot == Setup && Possible(h, a, Finished) && Distinct(a.tokens)
    requires |Recipients(a.draft.members)| == 2 && '/' !in a.tokens[0] && '/' !in a.tokens[1]
    requires h.admission(Recipients(a.draft.members)[0]) == h.admission(Recipients(a.draft.members)[1])
    ensures var w, links := Next(h, i, Commit(a, Finished, false)).world, LinksOf(a);
            && |links| == 2 && !Live(h, w, links[0].email, LastPart(links[0].url))
            && Live(h, w, links[1].email, LastPart(links[1].url))
  {
    ShownLinkIsLiveIff(h, i, a, 0);
    ShownLinkIsLiveIff(h, i, a, 1);
  }

  /** What the next boot reads from the runtime.env on disk. */
  lemma BootReadsRuntimeEnv(h: Host, i: Instance, env: Environment, key: string)
    requires Inv(h, i) && ENV_FILE in i.world.files
    requires var a := i.attempts[i.envFrom];
             Plain(a.draft.commissioner) && Plain(a.secret) && PlainPairs(a.draft.aliases)
    ensures var a := i.attempts[i.envFrom];
            var loaded := LoadLines(Split(i.world.files[ENV_FILE], '\n'), env, 0);
            loaded.error.None? &&
            Getenv(loaded.env, key) ==
              if !Blank(Getenv(env, key)) then Getenv(env, key)
              else if key == COMMISSIONER then a.draft.commissioner
              else if key == SECRET then a.secret
              else if key == ALIASES && a.draft.aliases != [] then AliasText(a.draft.aliases)
              else Getenv(env, key)
  {
    var a := i.attempts[i.envFrom];
    RenderedFileRestores(a.draft.commissioner, a.draft.aliases, a.secret, env);
    ReadsBack(a.draft.commissioner, a.draft.aliases, a.secret, env, key);
  }
}
