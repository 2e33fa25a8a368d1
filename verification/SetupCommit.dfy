/** The setup wizard's commit (wizard_commit.go): five ordered steps, two of them atomic file
    writes, that a crash or an error may cut at any operation and that the operator may retry
    with an edited draft.

    `Machine` runs the steps against a disk and a store whose next `remaining` operations
    succeed and whose following one fails, by an error or by killing the process.  Module
    `CommitRuns` chains attempts and restarts. */
module SetupCommit {
  import opened Text
  import opened RuntimeEnv

  const ENV_FILE := "runtime.env"
  const LEAGUE_FILE := "league.json"

  /** What the commit takes from code outside this file. */
  datatype Host = Host(
    valid: string -> bool,          // league.LoadConfigBytes accepts these bytes
    sha256: string -> string,
    admission: string -> string)    // the store's normal form of an email address

  /** `encoded` is None when the config does not marshal. */
  datatype Draft = Draft(
    encoded: Option<string>,
    leagueURL: string,
    commissioner: string,
    aliases: seq<AliasPair>,
    members: seq<string>)

  /** `tokens` is what the random source yields; `writable` says the store has not refused writes,
      as it does after a failed load. */
  datatype Attempt = Attempt(draft: Draft, secret: string, tokens: seq<string>, writable: bool)

  datatype Marker = Marker(completedBy: string, configSHA256: string)

  datatype MintedLink = MintedLink(email: string, url: string)

  /** `files` holds only finished files.  `invited` is the store's list in memory, `durable`
      the list in the database; `dirty` says a write of that list has failed.  `links` holds, for
      an address, the token of its one link that is neither used nor revoked. */
  datatype World = World(
    files: map<string, string>,
    invited: set<string>,
    durable: set<string>,
    dirty: bool,
    marker: Option<Marker>,
    links: map<string, string>)

  // ---------------------------------------------------------------- what an attempt may leave

  datatype Progress =
    | Refused                                  // step 1 failed
    | Validated                                // runtime.env not replaced
    | Inviting(done: nat, next: Admission)     // `done` recipients have their links
    | LeagueWritten                            // marker not written
    | Finished

  /** How far the recipient after the finished ones has come; `Admitted` has no link yet. */
  datatype Admission = Untouched | InMemoryOnly | Admitted

  function Recipients(members: seq<string>): seq<string>
  {
    if members == [] then []
    else
      var before := Recipients(members[..|members| - 1]);
      var email := TrimSpace(members[|members| - 1]);
      if email == "" then before else before + [email]
  }

  predicate Mintable(h: Host, a: Attempt, email: string)
  {
    a.writable && h.admission(email) != "" && '@' in h.admission(email)
  }

  function Admit(h: Host, w: World, email: string): World
  {
    var e := h.admission(email);
    if e in w.invited then w
    else w.(invited := w.invited + {e}, durable := w.invited + {e}, dirty := false)
  }

  function AdmitInMemory(h: Host, w: World, email: string): World
  {
    var e := h.admission(email);
    if e in w.invited then w else w.(invited := w.invited + {e}, dirty := true)
  }

  /** The recipient admitted and a link minted; an earlier link of the address is revoked. */
  function Invite(h: Host, w: World, email: string, token: string): World
  {
    var admitted := Admit(h, w, email);
    admitted.(links := admitted.links[h.admission(email) := token])
  }

  function InviteAll(h: Host, w: World, emails: seq<string>, tokens: seq<string>): World
    requires |emails| <= |tokens|
  {
    if emails == [] then w
    else
      var n := |emails| - 1;
      Invite(h, InviteAll(h, w, emails[..n], tokens), emails[n], tokens[n])
  }

  /** The world once `done` recipients have their links and the next one is at `next`. */
  function Invited(h: Host, w: World, emails: seq<string>, tokens: seq<string>, done: nat, next: Admission): World
    requires done <= |emails| <= |tokens| && (!next.Untouched? ==> done < |emails|)
  {
    var before := InviteAll(h, w, emails[..done], tokens);
    match next
    case Untouched => before
    case InMemoryOnly => AdmitInMemory(h, before, emails[done])
    case Admitted => Admit(h, before, emails[done])
  }

  predicate AllMintable(h: Host, a: Attempt, emails: seq<string>)
  {
    forall i :: 0 <= i < |emails| ==> Mintable(h, a, emails[i])
  }

  function EnvContent(a: Attempt): string
  {
    Rendered(a.draft.commissioner, a.draft.aliases, a.secret)
  }

  /** There is a token for each recipient. */
  predicate Possible(h: Host, a: Attempt, p: Progress)
  {
    var emails := Recipients(a.draft.members);
    var accepted := a.draft.encoded.Some? && h.valid(a.draft.encoded.value);
    |emails| <= |a.tokens| &&
    match p
    case Refused => !accepted
    case Validated => accepted
    case Inviting(done, next) =>
      accepted && done <= |emails| && AllMintable(h, a, emails[..done]) &&
      (!next.Untouched? ==> done < |emails| && Mintable(h, a, emails[done]))
    case LeagueWritten => accepted && AllMintable(h, a, emails)
    case Finished => accepted && a.writable && AllMintable(h, a, emails)
  }

  /** What steps 3 to 5 leave, from a world that holds the attempt's runtime.env. */
  function AfterEnv(h: Host, withEnv: World, a: Attempt, p: Progress): World
    requires Possible(h, a, p) && !p.Refused? && !p.Validated?
  {
    match p
    case Inviting(done, next) => Invited(h, withEnv, Recipients(a.draft.members), a.tokens, done, next)
    case LeagueWritten => WithLeague(h, withEnv, a)
    case Finished =>
      WithLeague(h, withEnv, a)
        .(marker := Some(Marker(a.draft.commissioner, h.sha256(a.draft.encoded.value))))
  }

  function WithEnv(w: World, a: Attempt): World
  {
    w.(files := w.files[ENV_FILE := EnvContent(a)])
  }

  /** The world an attempt leaves when it stops at `p`. */
  function After(h: Host, w: World, a: Attempt, p: Progress): World
    requires Possible(h, a, p)
  {
    if p.Refused? || p.Validated? then w else AfterEnv(h, WithEnv(w, a), a, p)
  }

  function WithLeague(h: Host, w: World, a: Attempt): World
    requires a.draft.encoded.Some? && |Recipients(a.draft.members)| <= |a.tokens|
  {
    var invited := InviteAll(h, w, Recipients(a.draft.members), a.tokens);
    invited.(files := invited.files[LEAGUE_FILE := a.draft.encoded.value])
  }

  /** strings.TrimSuffix(strings.TrimSpace(url), "/"). */
  function LinkPrefix(url: string): string
  {
    var u := TrimSpace(url);
    if u != "" && u[|u| - 1] == '/' then u[..|u| - 1] else u
  }

  /** What steps 4 and 5 add once every recipient is through. */
  lemma AllInvited(h: Host, w: World, a: Attempt, done: nat)
    requires done == |Recipients(a.draft.members)| <= |a.tokens| && a.draft.encoded.Some?
    requires h.valid(a.draft.encoded.value) && AllMintable(h, a, Recipients(a.draft.members)[..done])
    ensures var invited := Invited(h, w, Recipients(a.draft.members), a.tokens, done, Untouched);
            var written := invited.(files := invited.files[LEAGUE_FILE := a.draft.encoded.value]);
            && Possible(h, a, Inviting(done, Untouched)) && AfterEnv(h, w, a, Inviting(done, Untouched)) == invited
            && Possible(h, a, LeagueWritten) && AfterEnv(h, w, a, LeagueWritten) == written
            && (a.writable ==>
                  Possible(h, a, Finished) &&
                  AfterEnv(h, w, a, Finished) ==
                    written.(marker := Some(Marker(a.draft.commissioner, h.sha256(a.draft.encoded.value)))))
  {
    var emails := Recipients(a.draft.members);
    assert emails[..done] == emails;
  }

  function Link(prefix: string, email: string, token: string): MintedLink
  {
    var path := "/auth/invite/" + token;
    MintedLink(email, if prefix == "" then path else prefix + path)
  }

  function Paired<T>(f: (string, string) -> T, emails: seq<string>, tokens: seq<string>): seq<T>
    requires |emails| <= |tokens|
  {
    seq(|emails|, i requires 0 <= i < |emails| => f(emails[i], tokens[i]))
  }

  lemma PairedGrows<T>(f: (string, string) -> T, emails: seq<string>, tokens: seq<string>, done: nat)
    requires done < |emails| <= |tokens|
    ensures Paired(f, emails[..done + 1], tokens) ==
            Paired(f, emails[..done], tokens) + [f(emails[done], tokens[done])]
  {
  }

  function Links(prefix: string, emails: seq<string>, tokens: seq<string>): seq<MintedLink>
    requires |emails| <= |tokens|
  {
    Paired((email, token) => Link(prefix, email, token), emails, tokens)
  }

  /** The links of the completion page. */
  function LinksOf(a: Attempt): seq<MintedLink>
    requires |Recipients(a.draft.members)| <= |a.tokens|
  {
    Links(LinkPrefix(a.draft.leagueURL), Recipients(a.draft.members), a.tokens)
  }

  /** What an operator must have entered for the commit to go through: a config that loads, and
      addresses on every line that is not blank; and the store must take writes. */
  predicate Acceptable(h: Host, a: Attempt)
  {
    && a.draft.encoded.Some? && h.valid(a.draft.encoded.value) && a.writable
    && forall m :: m in a.draft.members && TrimSpace(m) != "" ==> '@' in h.admission(TrimSpace(m))
  }

  lemma {:induction false} RecipientsAre(members: seq<string>)
    ensures forall e :: e in Recipients(members) <==> e != "" && exists m :: m in members && TrimSpace(m) == e
  {
    if members != [] {
      var n := |members| - 1;
      RecipientsAre(members[..n]);
      assert members == members[..n] + [members[n]];
    }
  }

  /** A commit can complete exactly for an acceptable attempt, and is refused exactly for a config
      that does not load. */
  lemma CompletesIff(h: Host, a: Attempt)
    requires |Recipients(a.draft.members)| <= |a.tokens|
    ensures Possible(h, a, Finished) <==> Acceptable(h, a)
    ensures Possible(h, a, Refused) <==> !(a.draft.encoded.Some? && h.valid(a.draft.encoded.value))
  {
    var emails := Recipients(a.draft.members);
    RecipientsAre(a.draft.members);
    if Possible(h, a, Finished) {
      forall m | m in a.draft.members && TrimSpace(m) != ""
        ensures '@' in h.admission(TrimSpace(m))
      {
        assert TrimSpace(m) in emails;
        var k :| 0 <= k < |emails| && emails[k] == TrimSpace(m);
        assert Mintable(h, a, emails[k]);
      }
    }
    if Acceptable(h, a) {
      forall k | 0 <= k < |emails|
        ensures Mintable(h, a, emails[k])
      {
        assert emails[k] in emails;
      }
    }
  }

  /** What follows the last slash. */
  function LastPart(url: string): string
  {
    if url == "" || url[|url| - 1] == '/' then ""
    else LastPart(url[..|url| - 1]) + [url[|url| - 1]]
  }

  lemma {:induction false} LastPartIs(before: string, part: string)
    requires '/' !in part
    ensures LastPart(before + "/" + part) == part
  {
    if part == "" {
      assert before + "/" + part == before + "/";
    } else {
      var n := |part| - 1;
      LastPartIs(before, part[..n]);
      assert (before + "/" + part)[..|before + "/" + part| - 1] == before + "/" + part[..n];
      assert part == part[..n] + [part[n]];
    }
  }

  /** The completion page: a link for every recipient, which ends in the recipient's token and starts
      with the league's address, white space and one closing slash aside. */
  lemma LinkShown(a: Attempt, k: nat) returns (base: string)
    requires k < |Recipients(a.draft.members)| <= |a.tokens| && '/' !in a.tokens[k]
    ensures |LinksOf(a)| == |Recipients(a.draft.members)|
    ensures var link, url := LinksOf(a)[k], TrimSpace(a.draft.leagueURL);
            && link.email == Recipients(a.draft.members)[k] && LastPart(link.url) == a.tokens[k]
            && link.url == base + "/auth/invite/" + a.tokens[k]
            && url == if url != "" && url[|url| - 1] == '/' then base + "/" else base
  {
    var token, url := a.tokens[k], TrimSpace(a.draft.leagueURL);
    base := LinkPrefix(a.draft.leagueURL);
    assert url != "" && url[|url| - 1] == '/' ==> url == base + "/";
    assert "" + "/auth/invite/" + token == "/auth/invite/" + token;
    assert base + "/auth/invite/" + token == base + ("/auth/invite/" + token);
    assert base + "/auth/invite/" + token == (base + "/auth/invite") + "/" + token;
    LastPartIs(base + "/auth/invite", token);
  }

  lemma OneMore(h: Host, a: Attempt, w: World, emails: seq<string>, tokens: seq<string>, done: nat)
    requires done < |emails| <= |tokens|
    ensures InviteAll(h, w, emails[..done + 1], tokens) ==
            Invite(h, InviteAll(h, w, emails[..done], tokens), emails[done], tokens[done])
    ensures AllMintable(h, a, emails[..done]) && Mintable(h, a, emails[done]) ==> AllMintable(h, a, emails[..done + 1])
  {
    assert emails[..done + 1][..done] == emails[..done];
  }

  lemma OneMoreLink(prefix: string, emails: seq<string>, tokens: seq<string>, done: nat)
    requires done < |emails| <= |tokens|
    ensures Links(prefix, emails[..done + 1], tokens) ==
            Links(prefix, emails[..done], tokens) + [Link(prefix, emails[done], tokens[done])]
  {
    PairedGrows((email, token) => Link(prefix, email, token), emails, tokens, done);
  }

  // ---------------------------------------------------------------- the steps

  class Machine {
    const host: Host
    const attempt: Attempt
    const crash: bool           // the failing operation kills the process
    var remaining: nat
    var dead: bool
    var files: map<string, string>
    var temp: Option<string>    // the temporary file, if one exists
    var invited: set<string>
    var durable: set<string>
    var dirty: bool
    var marker: Option<Marker>
    var links: map<string, string>
    // commitContext
    var finalConfigBytes: string
    var finalConfigSHA256: string
    var mintedLinks: seq<MintedLink>

    function Here(): World
      reads this
    {
      World(files, invited, durable, dirty, marker, links)
    }

    constructor (host: Host, attempt: Attempt, w: World, remaining: nat, crash: bool)
      ensures Here() == w && this.host == host && this.attempt == attempt && this.crash == crash
      ensures this.remaining == remaining && !dead && temp == None
    {
      this.host, this.attempt, this.crash, this.remaining := host, attempt, crash, remaining;
      files, invited, durable, dirty, marker, links := w.files, w.invited, w.durable, w.dirty, w.marker, w.links;
      dead, temp := false, None;
      finalConfigBytes, finalConfigSHA256, mintedLinks := "", "", [];
    }

    /** One operation on the outside world. */
    method Operation() returns (ok: bool)
      modifies this`remaining, this`dead
      ensures ok == (old(remaining) > 0 && !old(dead))
      ensures ok ==> remaining == old(remaining) - 1 && !dead
      ensures !ok ==> remaining == old(remaining) && dead == (old(dead) || crash)
    {
      if dead || remaining == 0 {
        dead := dead || crash;
        return false;
      }
      remaining := remaining - 1;
      ok := true;
    }

    method RemoveTemp()
      modifies this`temp
      ensures temp == if dead then old(temp) else None
    {
      if !dead {
        temp := None;
      }
    }

    /** Temporary file, write, chmod, fsync, close, rename; `torn` bytes reach the temporary
        file when the write itself fails. */
    method WriteFileAtomic(path: string, data: string, torn: nat) returns (ok: bool)
      modifies this`remaining, this`dead, this`temp, this`files
      ensures ok == (old(remaining) >= 6 && !old(dead))
      ensures files == if ok then old(files)[path := data] else old(files)
      ensures ok ==> remaining == old(remaining) - 6 && !dead
      ensures !ok ==> dead == (old(dead) || crash)
      ensures old(temp) == None && !dead ==> temp == None
    {
      var done := Operation();
      if !done {
        return false;
      }
      temp := Some("");
      done := Operation();
      if !done {
        temp := Some(if torn <= |data| then data[..torn] else data);
        RemoveTemp();
        return false;
      }
      temp := Some(data);
      done := Operation();  // chmod
      if !done {
        RemoveTemp();
        return false;
      }
      done := Operation();  // fsync
      if !done {
        RemoveTemp();
        return false;
      }
      done := Operation();  // close
      if !done {
        RemoveTemp();
        return false;
      }
      done := Operation();  // rename
      if !done {
        RemoveTemp();
        return false;
      }
      files := files[path := temp.value];
      temp := None;
      ok := true;
    }

    method StepValidate() returns (ok: bool)
      modifies this`finalConfigBytes, this`finalConfigSHA256
      ensures ok == (attempt.draft.encoded.Some? && host.valid(attempt.draft.encoded.value))
      ensures ok ==> finalConfigBytes == attempt.draft.encoded.value &&
                     finalConfigSHA256 == host.sha256(finalConfigBytes)
    {
      if attempt.draft.encoded.None? {
        return false;
      }
      var raw := attempt.draft.encoded.value;
      if !host.valid(raw) {
        return false;
      }
      finalConfigBytes := raw;
      finalConfigSHA256 := host.sha256(raw);
      ok := true;
    }

    method StepWriteRuntimeEnv(torn: nat) returns (ok: bool)
      modifies this`remaining, this`dead, this`temp, this`files
      ensures ok == (old(remaining) >= 6 && !old(dead))
      ensures files == if ok then old(files)[ENV_FILE := EnvContent(attempt)] else old(files)
      ensures ok ==> remaining == old(remaining) - 6 && !dead
      ensures !ok ==> dead == (old(dead) || crash)
    {
      var content := RenderRuntimeEnv(attempt.draft.commissioner, attempt.draft.aliases, attempt.secret);
      ok := WriteFileAtomic(ENV_FILE, content, torn);
    }

    /** Store.MintInviteLinkWithAdmission; `token` is what the random source yields. */
    method Mint(email: string, token: string) returns (reached: Admission, ok: bool)
      modifies this`remaining, this`dead, this`invited, this`durable, this`dirty, this`links
      ensures Here() == if ok then Invite(host, old(Here()), email, token)
                        else match reached
                             case Untouched => old(Here())
                             case InMemoryOnly => AdmitInMemory(host, old(Here()), email)
                             case Admitted => Admit(host, old(Here()), email)
      ensures ok ==> reached.Admitted?
      ensures !reached.Untouched? ==> Mintable(host, attempt, email)
      ensures !old(dead) && old(remaining) >= 2 && Mintable(host, attempt, email)
              ==> ok && old(remaining) - remaining <= 2 && !dead
    {
      var e := host.admission(email);
      if e == "" || '@' !in e {
        return Untouched, false;
      }
      if !attempt.writable {
        return Untouched, false;
      }
      if e !in invited {
        invited := invited + {e};
        dirty := true;
        var persisted := Operation();
        if !persisted {
          return InMemoryOnly, false;
        }
        durable := invited;
        dirty := false;
      }
      reached := Admitted;
      ok := Operation();  // the transaction that revokes the address's unused links and adds this one
      if ok {
        links := links[e := token];
      }
    }

    method AddLink(leagueURL: string, email: string, token: string)
      modifies this`mintedLinks
      ensures mintedLinks == old(mintedLinks) + [Link(leagueURL, email, token)]
    {
      var url := "/auth/invite/" + token;
      if leagueURL != "" {
        url := leagueURL + url;
      }
      mintedLinks := mintedLinks + [MintedLink(email, url)];
    }

    /** One turn of the loop below: the recipient after the `done` first ones. */
    method InviteOne(ghost start: World, ghost emails: seq<string>, done: nat, leagueURL: string, email: string)
      returns (reached: Admission, ok: bool)
      requires done < |emails| <= |attempt.tokens| && emails[done] == email
      requires AllMintable(host, attempt, emails[..done])
      requires Here() == InviteAll(host, start, emails[..done], attempt.tokens)
      requires mintedLinks == Links(leagueURL, emails[..done], attempt.tokens)
      modifies this`remaining, this`dead, this`invited, this`durable, this`dirty, this`links, this`mintedLinks
      ensures if ok then Here() == InviteAll(host, start, emails[..done + 1], attempt.tokens) &&
                         AllMintable(host, attempt, emails[..done + 1])
              else Here() == Invited(host, start, emails, attempt.tokens, done, reached)
      ensures !ok && !reached.Untouched? ==> Mintable(host, attempt, email)
      ensures ok ==> mintedLinks == Links(leagueURL, emails[..done + 1], attempt.tokens)
      ensures !old(dead) && old(remaining) >= 2 && Mintable(host, attempt, email)
              ==> ok && old(remaining) - remaining <= 2 && !dead
    {
      reached, ok := Mint(email, attempt.tokens[done]);
      if !ok {
        return;
      }
      OneMore(host, attempt, start, emails, attempt.tokens, done);
      OneMoreLink(leagueURL, emails, attempt.tokens, done);
      AddLink(leagueURL, email, attempt.tokens[done]);
    }

    /** The first `i` members are through: the `done` recipients among them have their links. */
    ghost predicate InvitedSoFar(start: World, leagueURL: string, i: nat, done: nat)
      reads this
    {
      var emails := Recipients(attempt.draft.members);
      && i <= |attempt.draft.members| && done <= |emails| <= |attempt.tokens|
      && emails[..done] == Recipients(attempt.draft.members[..i]) && AllMintable(host, attempt, emails[..done])
      && Here() == InviteAll(host, start, emails[..done], attempt.tokens)
      && mintedLinks == Links(leagueURL, emails[..done], attempt.tokens)
    }

    /** One member line: skipped when blank. */
    method InviteMember(ghost start: World, i: nat, done: nat, leagueURL: string)
      returns (count: nat, reached: Admission, ok: bool)
      requires i < |attempt.draft.members| && InvitedSoFar(start, leagueURL, i, done)
      modifies this`remaining, this`dead, this`invited, this`durable, this`dirty, this`links, this`mintedLinks
      ensures ok ==> InvitedSoFar(start, leagueURL, i + 1, count) && done <= count
      ensures var emails := Recipients(attempt.draft.members);
              !ok ==> count == done < |emails| && (!reached.Untouched? ==> Mintable(host, attempt, emails[done])) &&
                      Here() == Invited(host, start, emails, attempt.tokens, done, reached)
      ensures var emails := Recipients(attempt.draft.members);
              !old(dead) && old(remaining) >= 2 * (|emails| - done) && AllMintable(host, attempt, emails)
              ==> ok && !dead && old(remaining) - remaining <= 2 * (count - done)
    {
      RecipientsNext(attempt.draft.members, i);
      var email := TrimSpace(attempt.draft.members[i]);
      if email == "" {
        return done, Untouched, true;
      }
      reached, ok := InviteOne(start, Recipients(attempt.draft.members), done, leagueURL, email);
      count := if ok then done + 1 else done;
    }

    method StepWriteInvites() returns (done: nat, next: Admission, ok: bool)
      requires |Recipients(attempt.draft.members)| <= |attempt.tokens|
      modifies this`remaining, this`dead, this`invited, this`durable, this`dirty, this`links, this`mintedLinks
      ensures var emails := Recipients(attempt.draft.members);
              done <= |emails| && AllMintable(host, attempt, emails[..done]) &&
              (!next.Untouched? ==> done < |emails| && Mintable(host, attempt, emails[done])) &&
              Here() == Invited(host, old(Here()), emails, attempt.tokens, done, next)
      ensures ok ==> done == |Recipients(attempt.draft.members)| && next.Untouched?
      ensures ok ==> mintedLinks == LinksOf(attempt)
      ensures var emails := Recipients(attempt.draft.members);
              !old(dead) && old(remaining) >= 2 * |emails| && AllMintable(host, attempt, emails)
              ==> ok && !dead && old(remaining) - remaining <= 2 * |emails|
    {
      mintedLinks := [];
      var leagueURL := LinkPrefix(attempt.draft.leagueURL);
      done, next := 0, Untouched;
      for i := 0 to |attempt.draft.members|
        invariant InvitedSoFar(old(Here()), leagueURL, i, done) && next == Untouched
        invariant !old(dead) && old(remaining) >= 2 * |Recipients(attempt.draft.members)| &&
                  AllMintable(host, attempt, Recipients(attempt.draft.members))
                  ==> !dead && old(remaining) - remaining <= 2 * done
      {
        done, next, ok := InviteMember(old(Here()), i, done, leagueURL);
        if !ok {
          return;
        }
        next := Untouched;
      }
      assert attempt.draft.members[..|attempt.draft.members|] == attempt.draft.members;
      ok := true;
    }

    method StepWriteLeagueJSON(torn: nat) returns (ok: bool)
      modifies this`remaining, this`dead, this`temp, this`files
      ensures ok == (old(remaining) >= 6 && !old(dead))
      ensures files == if ok then old(files)[LEAGUE_FILE := finalConfigBytes] else old(files)
      ensures ok ==> remaining == old(remaining) - 6 && !dead
    {
      ok := WriteFileAtomic(LEAGUE_FILE, finalConfigBytes, torn);
    }

    method StepMarkSetupComplete() returns (ok: bool)
      modifies this`remaining, this`dead, this`marker
      ensures ok == (attempt.writable && old(remaining) > 0 && !old(dead))
      ensures marker == if ok then Some(Marker(attempt.draft.commissioner, finalConfigSHA256)) else old(marker)
    {
      if !attempt.writable {
        return false;
      }
      ok := Operation();
      if ok {
        marker := Some(Marker(attempt.draft.commissioner, finalConfigSHA256));
      }
    }

    /** Steps 4 and 5. */
    method WriteAndMark(torn: nat) returns (wrote: bool, marked: bool)
      modifies this`remaining, this`dead, this`temp, this`files, this`marker
      ensures files == if wrote then old(files)[LEAGUE_FILE := finalConfigBytes] else old(files)
      ensures marker == if marked then Some(Marker(attempt.draft.commissioner, finalConfigSHA256)) else old(marker)
      ensures marked ==> wrote && attempt.writable
      ensures attempt.writable && !old(dead) && old(remaining) >= 7 ==> marked
    {
      marked := false;
      wrote := StepWriteLeagueJSON(torn);
      if wrote {
        marked := StepMarkSetupComplete();
      }
    }

    /** Steps 4 and 5, once all `done` recipients are through. */
    method FinishCommit(torn: nat, ghost start: World, done: nat) returns (reached: Progress, ok: bool)
      requires attempt.draft.encoded == Some(finalConfigBytes) && host.valid(finalConfigBytes)
      requires finalConfigSHA256 == host.sha256(finalConfigBytes)
      requires done == |Recipients(attempt.draft.members)| <= |attempt.tokens|
      requires AllMintable(host, attempt, Recipients(attempt.draft.members)[..done])
      requires Here() == Invited(host, start, Recipients(attempt.draft.members), attempt.tokens, done, Untouched)
      modifies this`remaining, this`dead, this`temp, this`files, this`marker
      ensures Possible(host, attempt, reached) && !reached.Refused? && !reached.Validated?
      ensures Here() == AfterEnv(host, start, attempt, reached) && ok == reached.Finished?
      ensures attempt.writable && !old(dead) && old(remaining) >= 7 ==> ok
    {
      AllInvited(host, start, attempt, done);
      var wrote, marked := WriteAndMark(torn);
      ok := marked;
      reached := if marked then Finished else if wrote then LeagueWritten else Inviting(done, Untouched);
    }

    /** Steps 3 to 5. */
    method InviteAndFinish(torn: nat) returns (reached: Progress, ok: bool)
      requires |Recipients(attempt.draft.members)| <= |attempt.tokens|
      requires attempt.draft.encoded == Some(finalConfigBytes) && host.valid(finalConfigBytes)
      requires finalConfigSHA256 == host.sha256(finalConfigBytes)
      modifies this
      ensures Possible(host, attempt, reached) && !reached.Refused? && !reached.Validated?
      ensures Here() == AfterEnv(host, old(Here()), attempt, reached)
      ensures ok == reached.Finished?
      ensures ok ==> mintedLinks == LinksOf(attempt)
      ensures !old(dead) && old(remaining) >= Operations(attempt) - 6 && Possible(host, attempt, Finished) ==> ok
    {
      var done, next;
      done, next, ok := StepWriteInvites();
      if !ok {
        return Inviting(done, next), false;
      }
      reached, ok := FinishCommit(torn, old(Here()), done);
    }

    /** The five steps in order, stopping at the first failure. */
    method CommitWizard(torn: nat) returns (reached: Progress, ok: bool)
      requires |Recipients(attempt.draft.members)| <= |attempt.tokens|
      modifies this
      ensures Possible(host, attempt, reached) && Here() == After(host, old(Here()), attempt, reached)
      ensures ok == reached.Finished?
      ensures ok ==> mintedLinks == LinksOf(attempt) && Acceptable(host, attempt)
      ensures !old(dead) && old(remaining) >= Operations(attempt) && Acceptable(host, attempt) ==> ok
    {
      CompletesIff(host, attempt);
      ok := StepValidate();
      if !ok {
        return Refused, false;
      }
      ok := StepWriteRuntimeEnv(torn);
      if !ok {
        return Validated, false;
      }
      assert Here() == WithEnv(old(Here()), attempt);
      reached, ok := InviteAndFinish(torn);
    }
  }

  /** Enough successful operations for a whole commit. */
  function Operations(a: Attempt): nat
  {
    13 + 2 * |Recipients(a.draft.members)|
  }

  /** The member at `i` is the next recipient, or is skipped. */
  lemma RecipientsNext(members: seq<string>, i: nat)
    requires i < |members|
    ensures var before, emails := Recipients(members[..i]), Recipients(members);
            if TrimSpace(members[i]) == "" then Recipients(members[..i + 1]) == before
            else |before| < |emails| && emails[|before|] == TrimSpace(members[i]) &&
                 Recipients(members[..i + 1]) == emails[..|before| + 1]
  {
    assert members[..i + 1][..i] == members[..i];
    RecipientsPrefix(members, i + 1);
  }

  lemma {:induction false} RecipientsPrefix(members: seq<string>, n: nat)
    requires n <= |members|
    ensures Recipients(members[..n]) <= Recipients(members)
    decreases |members| - n
  {
    if n < |members| {
      RecipientsPrefix(members, n + 1);
      assert members[..n + 1][..n] == members[..n];
    } else {
      assert members[..n] == members;
    }
  }
}
