/** The setup token guard (setup_token.go): one live token per process, claimed by one session,
    minted anew when the claimed session idles out. */
module SetupToken {
  import opened Text

  /** SHA-256, taken to be injective. */
  datatype Digest = Sha256(of: string)

  datatype Minted = Minted(raw: string, epoch: string)

  datatype Guard = Guard(hash: Digest, epoch: string, claimed: bool, lastActivity: int)

  datatype ClaimResult = ClaimResult(epoch: string, ok: bool, already: bool)

  /** `supply` is what the random source yields, None when it fails. */
  function Remint(g: Guard, now: int, supply: Option<Minted>): Guard
  {
    match supply
    case None => g
    case Some(m) => Guard(Sha256(m.raw), m.epoch, false, now)
  }

  predicate Idle(g: Guard, idleTimeout: int, now: int)
  {
    g.claimed && idleTimeout > 0 && now - g.lastActivity > idleTimeout
  }

  function MaybeExpire(g: Guard, idleTimeout: int, now: int, supply: Option<Minted>): Guard
  {
    if Idle(g, idleTimeout, now) then Remint(g, now, supply) else g
  }

  function Claimed(g: Guard, idleTimeout: int, candidate: string, now: int, supply: Option<Minted>)
    : (Guard, ClaimResult)
  {
    var live := MaybeExpire(g, idleTimeout, now, supply);
    if Sha256(candidate) != live.hash then (live, ClaimResult("", false, false))
    else if live.claimed then (live, ClaimResult("", false, true))
    else (live.(claimed := true, lastActivity := now), ClaimResult(live.epoch, true, false))
  }

  function Checked(g: Guard, idleTimeout: int, session: string, now: int, supply: Option<Minted>): (Guard, bool)
  {
    var live := MaybeExpire(g, idleTimeout, now, supply);
    (live, live.claimed && session != "" && session == live.epoch)
  }

  function Touched(g: Guard, now: int): Guard
  {
    if g.claimed then g.(lastActivity := now) else g
  }

  class SetupTokenGuard {
    const idleTimeout: int
    var hash: Digest
    var epoch: string
    var claimed: bool
    var lastActivity: int
    var printed: seq<string>   // the raw tokens shown so far

    function State(): Guard
      reads this
    {
      Guard(hash, epoch, claimed, lastActivity)
    }

    constructor (idleTimeout: int, now: int, first: Minted)
      ensures this.idleTimeout == idleTimeout
      ensures State() == Guard(Sha256(first.raw), first.epoch, false, now) && printed == [first.raw]
    {
      this.idleTimeout := idleTimeout;
      hash, epoch, claimed, lastActivity := Sha256(first.raw), first.epoch, false, now;
      printed := [first.raw];
    }

    method RemintLocked(now: int, supply: Option<Minted>) returns (ok: bool)
      modifies this
      ensures State() == Remint(old(State()), now, supply) && ok == supply.Some?
      ensures printed == if ok then old(printed) + [supply.value.raw] else old(printed)
    {
      if supply.None? {
        return false;
      }
      hash := Sha256(supply.value.raw);
      epoch := supply.value.epoch;
      claimed := false;
      lastActivity := now;
      printed := printed + [supply.value.raw];
      ok := true;
    }

    method MaybeExpireLocked(now: int, supply: Option<Minted>)
      modifies this
      ensures State() == MaybeExpire(old(State()), idleTimeout, now, supply)
      ensures printed == if Idle(old(State()), idleTimeout, now) && supply.Some?
                         then old(printed) + [supply.value.raw] else old(printed)
    {
      if claimed && idleTimeout > 0 && now - lastActivity > idleTimeout {
        var _ := RemintLocked(now, supply);
      }
    }

    method Claim(candidate: string, now: int, supply: Option<Minted>) returns (result: ClaimResult)
      modifies this
      ensures (State(), result) == Claimed(old(State()), idleTimeout, candidate, now, supply)
    {
      MaybeExpireLocked(now, supply);
      if Sha256(candidate) != hash {
        return ClaimResult("", false, false);
      }
      if claimed {
        return ClaimResult("", false, true);
      }
      claimed := true;
      lastActivity := now;
      result := ClaimResult(epoch, true, false);
    }

    method Authorized(session: string, now: int, supply: Option<Minted>) returns (ok: bool)
      modifies this
      ensures (State(), ok) == Checked(old(State()), idleTimeout, session, now, supply)
    {
      MaybeExpireLocked(now, supply);
      ok := claimed && session != "" && session == epoch;
    }

    method Touch(now: int)
      modifies this
      ensures State() == Touched(old(State()), now) && printed == old(printed)
    {
      if claimed {
        lastActivity := now;
      }
    }
  }

  // ---------------------------------------------------------------- runs

  datatype Op =
    | Claim(candidate: string, now: int, supply: Option<Minted>)
    | Authorize(session: string, now: int, supply: Option<Minted>)
    | Touch(now: int)

  /** A successful claim: the mint it claimed and the epoch it handed out. */
  datatype Grant = Grant(mint: nat, epoch: string)

  /** A guard with its history: all mints, all successful claims, and the time of the last
      successful claim or touch of a claimed token. */
  datatype Process = Process(guard: Guard, mints: seq<Minted>, grants: seq<Grant>, lastAction: int)

  function Started(first: Minted, now: int): Process
  {
    Process(Guard(Sha256(first.raw), first.epoch, false, now), [first], [], now)
  }

  /** Random values are never seen twice. */
  predicate Unseen(p: Process, supply: Option<Minted>)
  {
    supply.Some? ==>
      supply.value.epoch != "" &&
      forall i :: 0 <= i < |p.mints| ==> p.mints[i].raw != supply.value.raw && p.mints[i].epoch != supply.value.epoch
  }

  predicate Possible(p: Process, op: Op)
  {
    op.Touch? || Unseen(p, op.supply)
  }

  function Expired(p: Process, idleTimeout: int, now: int, supply: Option<Minted>): Process
  {
    p.(guard := MaybeExpire(p.guard, idleTimeout, now, supply),
       mints := if Idle(p.guard, idleTimeout, now) && supply.Some? then p.mints + [supply.value] else p.mints)
  }

  /** The process once a claim has left `guard` and handed out `epoch`. */
  function Granted(p: Process, guard: Guard, epoch: string, now: int): Process
    requires p.mints != []
  {
    Process(guard, p.mints, p.grants + [Grant(|p.mints| - 1, epoch)], now)
  }

  function Next(p: Process, idleTimeout: int, op: Op): Process
  {
    match op
    case Claim(candidate, now, supply) =>
      var live := Expired(p, idleTimeout, now, supply);
      var (guard, result) := Claimed(p.guard, idleTimeout, candidate, now, supply);
      if result.ok && live.mints != [] then Granted(live, guard, result.epoch, now) else live.(guard := guard)
    case Authorize(session, now, supply) =>
      Expired(p, idleTimeout, now, supply).(guard := Checked(p.guard, idleTimeout, session, now, supply).0)
    case Touch(now) =>
      p.(guard := Touched(p.guard, now), lastAction := if p.guard.claimed then now else p.lastAction)
  }

  ghost predicate Runs(p: Process, idleTimeout: int, ops: seq<Op>, q: Process)
    decreases |ops|
  {
    if ops == [] then p == q
    else Possible(p, ops[0]) && Runs(Next(p, idleTimeout, ops[0]), idleTimeout, ops[1..], q)
  }

  predicate MintsOk(p: Process)
  {
    && p.mints != []
    && (forall i :: 0 <= i < |p.mints| ==> p.mints[i].epoch != "")
    && (forall i, j :: 0 <= i < j < |p.mints| ==>
          p.mints[i].raw != p.mints[j].raw && p.mints[i].epoch != p.mints[j].epoch)
    && p.guard.hash == Sha256(p.mints[|p.mints| - 1].raw)
    && p.guard.epoch == p.mints[|p.mints| - 1].epoch
  }

  /** Each mint is granted at most once, and a grant hands out its mint's epoch. */
  predicate GrantsOk(p: Process)
  {
    && (forall i :: 0 <= i < |p.grants| ==>
          p.grants[i].mint < |p.mints| && p.grants[i].epoch == p.mints[p.grants[i].mint].epoch)
    && (forall i, j :: 0 <= i < j < |p.grants| ==> p.grants[i].mint < p.grants[j].mint)
    && (p.guard.claimed ==>
          p.grants != [] && p.grants[|p.grants| - 1].mint == |p.mints| - 1 && p.guard.lastActivity == p.lastAction)
    && (!p.guard.claimed ==> forall i :: 0 <= i < |p.grants| ==> p.grants[i].mint < |p.mints| - 1)
  }

  predicate Inv(p: Process)
  {
    MintsOk(p) && GrantsOk(p)
  }

  lemma StartedInv(first: Minted, now: int)
    requires first.epoch != ""
    ensures Inv(Started(first, now))
  {
  }

  lemma ExpiredMints(p: Process, idleTimeout: int, now: int, supply: Option<Minted>)
    requires MintsOk(p) && Unseen(p, supply)
    ensures MintsOk(Expired(p, idleTimeout, now, supply)) && p.mints <= Expired(p, idleTimeout, now, supply).mints
  {
  }

  lemma ExpiredInv(p: Process, idleTimeout: int, now: int, supply: Option<Minted>)
    requires Inv(p) && Unseen(p, supply)
    ensures Inv(Expired(p, idleTimeout, now, supply)) && p.mints <= Expired(p, idleTimeout, now, supply).mints
  {
    ExpiredMints(p, idleTimeout, now, supply);
  }

  lemma GrantedInv(p: Process, now: int)
    requires Inv(p) && !p.guard.claimed
    ensures Inv(Granted(p, p.guard.(claimed := true, lastActivity := now), p.guard.epoch, now))
  {
  }

  lemma TouchInv(p: Process, idleTimeout: int, now: int)
    requires Inv(p)
    ensures Inv(Next(p, idleTimeout, Touch(now)))
  {
  }

  /** A claim either expires the guard and no more, or also grants the live mint. */
  lemma ClaimSteps(p: Process, idleTimeout: int, op: Op)
    requires p.mints != [] && op.Claim?
    ensures var live, q := Expired(p, idleTimeout, op.now, op.supply), Next(p, idleTimeout, op);
            q == live ||
            (!live.guard.claimed && live.mints != [] &&
             q == Granted(live, live.guard.(claimed := true, lastActivity := op.now), live.guard.epoch, op.now))
  {
  }

  lemma NextInv(p: Process, idleTimeout: int, op: Op)
    requires Inv(p) && Possible(p, op)
    ensures Inv(Next(p, idleTimeout, op)) && p.mints <= Next(p, idleTimeout, op).mints
  {
    if op.Touch? {
      TouchInv(p, idleTimeout, op.now);
    } else {
      ExpiredInv(p, idleTimeout, op.now, op.supply);
      var live := Expired(p, idleTimeout, op.now, op.supply);
      if op.Claim? {
        ClaimSteps(p, idleTimeout, op);
        if !live.guard.claimed {
          GrantedInv(live, op.now);
        }
      }
    }
  }

  lemma {:induction false} InvAlongRun(p: Process, idleTimeout: int, ops: seq<Op>, q: Process)
    requires Inv(p) && Runs(p, idleTimeout, ops, q)
    ensures Inv(q) && p.mints <= q.mints
    decreases |ops|
  {
    if ops != [] {
      NextInv(p, idleTimeout, ops[0]);
      InvAlongRun(Next(p, idleTimeout, ops[0]), idleTimeout, ops[1..], q);
    }
  }

  ghost predicate Reachable(p: Process, idleTimeout: int)
  {
    exists first: Minted, now: int, ops: seq<Op> :: first.epoch != "" && Runs(Started(first, now), idleTimeout, ops, p)
  }

  lemma ReachableInv(p: Process, idleTimeout: int)
    requires Reachable(p, idleTimeout)
    ensures Inv(p)
  {
    var first: Minted, now: int, ops: seq<Op> :| first.epoch != "" && Runs(Started(first, now), idleTimeout, ops, p);
    StartedInv(first, now);
    InvAlongRun(Started(first, now), idleTimeout, ops, p);
  }

  /** Over every run no mint is claimed twice, and each claim hands out its own mint's epoch. */
  lemma OneClaimPerMint(p: Process, idleTimeout: int)
    requires Reachable(p, idleTimeout)
    ensures forall i, j :: 0 <= i < j < |p.grants| ==>
              p.grants[i].mint != p.grants[j].mint && p.grants[i].epoch != p.grants[j].epoch
    ensures forall i :: 0 <= i < |p.grants| ==>
              p.grants[i].mint < |p.mints| && p.grants[i].epoch == p.mints[p.grants[i].mint].epoch
  {
    ReachableInv(p, idleTimeout);
  }

  /** What a positive authorization proves: the session's epoch was handed out by the claim of
      the current mint, and the last action is within the idle timeout, if there is one. */
  lemma AuthorizedMeans(p: Process, idleTimeout: int, session: string, now: int, supply: Option<Minted>)
    requires Reachable(p, idleTimeout) && supply.Some?
    requires Checked(p.guard, idleTimeout, session, now, supply).1
    ensures exists k :: 0 <= k < |p.grants| && p.grants[k].mint == |p.mints| - 1 && p.grants[k].epoch == session
    ensures idleTimeout > 0 ==> now - p.lastAction <= idleTimeout
  {
    ReachableInv(p, idleTimeout);
    CheckedMeans(p, idleTimeout, session, now, supply);
  }

  lemma CheckedMeans(p: Process, idleTimeout: int, session: string, now: int, supply: Option<Minted>)
    requires Inv(p) && supply.Some? && Checked(p.guard, idleTimeout, session, now, supply).1
    ensures exists k :: 0 <= k < |p.grants| && p.grants[k].mint == |p.mints| - 1 && p.grants[k].epoch == session
    ensures idleTimeout > 0 ==> now - p.lastAction <= idleTimeout
  {
    var k := |p.grants| - 1;
    assert p.guard.claimed;
    assert p.grants[k].mint == |p.mints| - 1 && p.grants[k].epoch == session;
  }

  /** Once a newer token is minted, the older epoch is never authorized again. */
  lemma OldEpochIsDead(p: Process, idleTimeout: int, ops: seq<Op>, q: Process, mint: nat, now: int,
                       supply: Option<Minted>)
    requires Reachable(p, idleTimeout) && Runs(p, idleTimeout, ops, q) && Unseen(q, supply) && mint + 1 < |p.mints|
    ensures !Checked(q.guard, idleTimeout, p.mints[mint].epoch, now, supply).1
  {
    ReachableInv(p, idleTimeout);
    InvAlongRun(p, idleTimeout, ops, q);
    assert q.mints[mint].epoch == p.mints[mint].epoch;
  }

  /** A run whose calls all fall within the idle timeout after `since`, if there is a timeout. */
  predicate Within(ops: seq<Op>, since: int, idleTimeout: int)
  {
    forall i :: 0 <= i < |ops| ==> since <= ops[i].now && (idleTimeout > 0 ==> ops[i].now <= since + idleTimeout)
  }

  /** A session that was claimed or touched at some instant, as every authorized page view and
      action does, stays authorized until the timeout after it, whatever other callers do; without
      a timeout it stays so for ever. */
  lemma {:induction false} SessionSurvives(p: Process, idleTimeout: int, ops: seq<Op>, q: Process, since: int, now: int,
                                           supply: Option<Minted>)
    requires p.guard.claimed && p.guard.epoch != "" && since <= p.guard.lastActivity
    requires Runs(p, idleTimeout, ops, q) && Within(ops, since, idleTimeout)
    requires idleTimeout > 0 ==> now <= since + idleTimeout
    ensures Checked(q.guard, idleTimeout, p.guard.epoch, now, supply).1
    decreases |ops|
  {
    if ops != [] {
      var next := Next(p, idleTimeout, ops[0]);
      assert next.guard.claimed && next.guard.epoch == p.guard.epoch && since <= next.guard.lastActivity;
      SessionSurvives(next, idleTimeout, ops[1..], q, since, now, supply);
    }
  }

  /** The right token claims an unclaimed mint; the same token is "already claimed" while that
      claim lives; any other text is neither. */
  lemma ClaimOutcome(p: Process, idleTimeout: int, candidate: string, now: int, supply: Option<Minted>)
    requires Inv(p)
    ensures var result := Claimed(p.guard, idleTimeout, candidate, now, supply).1;
            var live := Expired(p, idleTimeout, now, supply);
            var right := candidate == live.mints[|live.mints| - 1].raw;
            && result.ok == (right && !live.guard.claimed)
            && result.already == (right && live.guard.claimed)
            && result.epoch == (if result.ok then live.mints[|live.mints| - 1].epoch else "")
  {
  }

  /** A token waits for its claim for ever: however late, and whatever else was tried, it is the one
      that claims. */
  lemma {:induction false} UnclaimedTokenWaits(p: Process, idleTimeout: int, ops: seq<Op>, q: Process, raw: string,
                                               now: int, supply: Option<Minted>)
    requires !p.guard.claimed && p.guard.hash == Sha256(raw) && Runs(p, idleTimeout, ops, q)
    requires forall i :: 0 <= i < |ops| && ops[i].Claim? ==> ops[i].candidate != raw
    ensures q == p && Claimed(q.guard, idleTimeout, raw, now, supply).1 == ClaimResult(p.guard.epoch, true, false)
    decreases |ops|
  {
    if ops != [] {
      assert Next(p, idleTimeout, ops[0]) == p;
      UnclaimedTokenWaits(p, idleTimeout, ops[1..], q, raw, now, supply);
    }
  }

  lemma {:induction false} RunsThen(p: Process, idleTimeout: int, ops: seq<Op>, q: Process, op: Op)
    requires Runs(p, idleTimeout, ops, q) && Possible(q, op)
    ensures Runs(p, idleTimeout, ops + [op], Next(q, idleTimeout, op))
    decreases |ops|
  {
    if ops == [] {
      assert [] + [op] == [op] && [op][1..] == [];
    } else {
      assert (ops + [op])[1..] == ops[1..] + [op];
      RunsThen(Next(p, idleTimeout, ops[0]), idleTimeout, ops[1..], q, op);
    }
  }

  lemma ReachableThen(p: Process, idleTimeout: int, op: Op)
    requires Reachable(p, idleTimeout) && Possible(p, op)
    ensures Reachable(Next(p, idleTimeout, op), idleTimeout)
  {
    var first: Minted, now: int, ops: seq<Op> :| first.epoch != "" && Runs(Started(first, now), idleTimeout, ops, p);
    RunsThen(Started(first, now), idleTimeout, ops, p, op);
  }

  /** A check that meets an idle claim refuses every session, and the idle session is refused ever
      after, whatever is called in between. */
  lemma IdleSessionIsDead(p: Process, idleTimeout: int, session: string, now: int, minted: Minted, ops: seq<Op>,
                          q: Process, later: int, supply: Option<Minted>)
    requires Reachable(p, idleTimeout) && Idle(p.guard, idleTimeout, now) && Unseen(p, Some(minted))
    requires Runs(Next(p, idleTimeout, Authorize(session, now, Some(minted))), idleTimeout, ops, q) && Unseen(q, supply)
    ensures !Checked(p.guard, idleTimeout, session, now, Some(minted)).1
    ensures !Checked(q.guard, idleTimeout, p.guard.epoch, later, supply).1
  {
    var check := Authorize(session, now, Some(minted));
    ReachableInv(p, idleTimeout);
    ReachableThen(p, idleTimeout, check);
    OldEpochIsDead(Next(p, idleTimeout, check), idleTimeout, ops, q, |p.mints| - 1, later, supply);
  }
}
