/** First-sight registration of test users (app_build.go): one sync.Once per email in a shared
    map, dropped again when its registration call fails.

    `Requests` interleaves any number of `register` calls; `HarnessProvider` is the same code
    run by one caller at a time. */
module Registration {

  datatype Status = Idle | Running(runner: nat) | Done(ok: bool)

  datatype Once = Once(email: string, status: Status)

  datatype Phase =
    | LookedUp   // about to call once.Do
    | InCall     // running EnsureMember
    | Failed     // its call failed and its entry has not been dropped yet
    | Returned

  /** One `register` call: its email, the entry it looked up and how far it got. */
  datatype Caller = Caller(email: string, once: nat, phase: Phase)

  datatype Requests = Requests(registrations: map<string, nat>, onces: seq<Once>, callers: map<nat, Caller>)

  datatype Step = Lookup(id: nat, email: string) | Do(id: nat) | Finish(id: nat, ok: bool) | Drop(id: nat)

  function Start(): Requests
  {
    Requests(map[], [], map[])
  }

  predicate At(s: Requests, id: nat)
  {
    id in s.callers && s.callers[id].once < |s.onces|
  }

  /** once.Do blocks while another caller is running the entry. */
  predicate Enabled(s: Requests, step: Step)
  {
    match step
    case Lookup(id, email) => id !in s.callers && (email in s.registrations ==> s.registrations[email] < |s.onces|)
    case Do(id) => At(s, id) && s.callers[id].phase == LookedUp && !s.onces[s.callers[id].once].status.Running?
    case Finish(id, _) => At(s, id) && s.callers[id].phase == InCall
    case Drop(id) => At(s, id) && s.callers[id].phase == Failed
  }

  function Next(s: Requests, step: Step): Requests
    requires Enabled(s, step)
  {
    match step
    case Lookup(id, email) =>
      if email in s.registrations then
        s.(callers := s.callers[id := Caller(email, s.registrations[email], LookedUp)])
      else
        var once := |s.onces|;
        Requests(s.registrations[email := once], s.onces + [Once(email, Idle)],
                 s.callers[id := Caller(email, once, LookedUp)])
    case Do(id) =>
      var c := s.callers[id];
      if s.onces[c.once].status.Done? then s.(callers := s.callers[id := c.(phase := Returned)])
      else
        s.(onces := s.onces[c.once := s.onces[c.once].(status := Running(id))],
           callers := s.callers[id := c.(phase := InCall)])
    case Finish(id, ok) =>
      var c := s.callers[id];
      s.(onces := s.onces[c.once := s.onces[c.once].(status := Done(ok))],
         callers := s.callers[id := c.(phase := if ok then Returned else Failed)])
    case Drop(id) =>
      var c := s.callers[id];
      s.(registrations := if c.email in s.registrations && s.registrations[c.email] == c.once
                          then s.registrations - {c.email} else s.registrations,
         callers := s.callers[id := c.(phase := Returned)])
  }

  ghost predicate Runs(s: Requests, steps: seq<Step>, t: Requests)
    decreases |steps|
  {
    if steps == [] then s == t
    else Enabled(s, steps[0]) && Runs(Next(s, steps[0]), steps[1..], t)
  }

  // ---------------------------------------------------------------- invariant

  predicate Registered(s: Requests, once: nat)
    requires once < |s.onces|
  {
    s.onces[once].email in s.registrations && s.registrations[s.onces[once].email] == once
  }

  predicate RegistrationsOk(s: Requests)
  {
    forall email :: email in s.registrations ==>
      s.registrations[email] < |s.onces| && s.onces[s.registrations[email]].email == email
  }

  /** Only the entry in the map can still be waiting, running or successful. */
  predicate OncesOk(s: Requests)
  {
    && (forall o :: 0 <= o < |s.onces| ==> Registered(s, o) || s.onces[o].status == Done(false))
    && (forall o :: 0 <= o < |s.onces| && s.onces[o].status.Running? ==>
          s.onces[o].status.runner in s.callers &&
          s.callers[s.onces[o].status.runner] == Caller(s.onces[o].email, o, InCall))
  }

  predicate CallerOk(s: Requests, id: nat)
    requires id in s.callers
  {
    var c := s.callers[id];
    c.once < |s.onces| && s.onces[c.once].email == c.email &&
    match c.phase
    case LookedUp => true
    case InCall => s.onces[c.once].status == Running(id)
    case Failed => s.onces[c.once].status == Done(false) && Registered(s, c.once)
    case Returned => s.onces[c.once].status.Done?
  }

  /** A failed entry still in the map is owned by the one caller that ran it ... */
  predicate FailedApart(s: Requests)
  {
    forall id, other ::
      id in s.callers && other in s.callers && id != other &&
      s.callers[id].phase == Failed && s.callers[other].phase == Failed
      ==> s.callers[id].once != s.callers[other].once
  }

  /** ... which has yet to drop it. */
  predicate FailedOwned(s: Requests)
  {
    forall o :: 0 <= o < |s.onces| && Registered(s, o) && s.onces[o].status == Done(false) ==>
      exists id :: id in s.callers && s.callers[id] == Caller(s.onces[o].email, o, Failed)
  }

  predicate Inv(s: Requests)
  {
    && RegistrationsOk(s) && OncesOk(s) && (forall id :: id in s.callers ==> CallerOk(s, id))
    && FailedApart(s) && FailedOwned(s)
  }

  lemma NextRegistrations(s: Requests, step: Step)
    requires Inv(s) && Enabled(s, step)
    ensures RegistrationsOk(Next(s, step))
  {
  }

  lemma NextOnces(s: Requests, step: Step)
    requires Inv(s) && Enabled(s, step)
    ensures OncesOk(Next(s, step))
  {
    var t := Next(s, step);
    forall o | 0 <= o < |t.onces|
      ensures Registered(t, o) || t.onces[o].status == Done(false)
    {
      if o < |s.onces| {
        assert Registered(s, o) || s.onces[o].status == Done(false);
      }
    }
    forall o | 0 <= o < |t.onces| && t.onces[o].status.Running?
      ensures t.onces[o].status.runner in t.callers
      ensures t.callers[t.onces[o].status.runner] == Caller(t.onces[o].email, o, InCall)
    {
      if !(step.Do? && t.onces[o].status.runner == step.id) {
        assert s.onces[o].status == t.onces[o].status;
      }
    }
  }

  lemma NextCallers(s: Requests, step: Step)
    requires Inv(s) && Enabled(s, step)
    ensures forall id :: id in Next(s, step).callers ==> CallerOk(Next(s, step), id)
  {
    forall id | id in Next(s, step).callers
      ensures CallerOk(Next(s, step), id)
    {
      NextCaller(s, step, id);
    }
  }

  lemma NextCaller(s: Requests, step: Step, id: nat)
    requires Inv(s) && Enabled(s, step) && id in Next(s, step).callers
    ensures CallerOk(Next(s, step), id)
  {
    assert id in s.callers ==> CallerOk(s, id);
  }

  lemma NextFailedApart(s: Requests, step: Step)
    requires Inv(s) && Enabled(s, step)
    ensures FailedApart(Next(s, step))
  {
  }

  lemma NextFailedOwned(s: Requests, step: Step)
    requires Inv(s) && Enabled(s, step)
    ensures FailedOwned(Next(s, step))
  {
    var t := Next(s, step);
    forall o | 0 <= o < |t.onces| && Registered(t, o) && t.onces[o].status == Done(false)
      ensures exists id :: id in t.callers && t.callers[id] == Caller(t.onces[o].email, o, Failed)
    {
      if step.Finish? && s.callers[step.id].once == o {
        assert t.callers[step.id] == Caller(t.onces[o].email, o, Failed);
      } else {
        assert Registered(s, o) && s.onces[o] == t.onces[o];
        var id :| id in s.callers && s.callers[id] == Caller(s.onces[o].email, o, Failed);
        assert t.callers[id] == Caller(t.onces[o].email, o, Failed);
      }
    }
  }

  lemma {:induction false} InvAlongRun(s: Requests, steps: seq<Step>, t: Requests)
    requires Inv(s) && Runs(s, steps, t)
    ensures Inv(t)
    decreases |steps|
  {
    if steps != [] {
      NextRegistrations(s, steps[0]);
      NextOnces(s, steps[0]);
      NextCallers(s, steps[0]);
      NextFailedApart(s, steps[0]);
      NextFailedOwned(s, steps[0]);
      InvAlongRun(Next(s, steps[0]), steps[1..], t);
    }
  }

  // ---------------------------------------------------------------- main results

  ghost predicate Reachable(s: Requests)
  {
    exists steps :: Runs(Start(), steps, s)
  }

  lemma ReachableInv(s: Requests)
    requires Reachable(s)
    ensures Inv(s)
  {
    var steps :| Runs(Start(), steps, s);
    InvAlongRun(Start(), steps, s);
  }

  /** Two callers are never registering the same email at once. */
  lemma OneCallInFlight(s: Requests, id: nat, other: nat)
    requires Reachable(s) && id in s.callers && other in s.callers
    requires s.callers[id].phase == InCall && s.callers[other].phase == InCall
    requires s.callers[id].email == s.callers[other].email
    ensures id == other
  {
    ReachableInv(s);
    assert CallerOk(s, id) && CallerOk(s, other);
  }

  /** No email is registered successfully twice. */
  lemma OneSuccessPerEmail(s: Requests, o: nat, p: nat)
    requires Reachable(s) && o < |s.onces| && p < |s.onces|
    requires s.onces[o].status == Done(true) && s.onces[p].status == Done(true)
    requires s.onces[o].email == s.onces[p].email
    ensures o == p
  {
    ReachableInv(s);
    assert Registered(s, o) && Registered(s, p);
  }

  /** Nor is one registered again while or after it has been registered successfully. */
  lemma NoCallAfterSuccess(s: Requests, o: nat, id: nat)
    requires Reachable(s) && o < |s.onces| && s.onces[o].status == Done(true)
    requires id in s.callers && s.callers[id].phase == InCall
    ensures s.callers[id].email != s.onces[o].email
  {
    ReachableInv(s);
    assert CallerOk(s, id) && Registered(s, o);
    assert Registered(s, s.callers[id].once);
  }

  /** How many steps a caller has to go at most. */
  function ToGo(phase: Phase): nat
  {
    match phase
    case LookedUp => 3
    case InCall => 2
    case Failed => 1
    case Returned => 0
  }

  /** While some caller has not returned, some caller can go on; and every step but a new request
      takes its caller on and leaves the others where they are.  So every request returns. */
  lemma NobodyIsStuck(s: Requests, id: nat) returns (step: Step)
    requires Reachable(s) && id in s.callers && s.callers[id].phase != Returned
    ensures Enabled(s, step) && !step.Lookup?
  {
    ReachableInv(s);
    assert CallerOk(s, id);
    var c := s.callers[id];
    match c.phase
    case LookedUp =>
      if s.onces[c.once].status.Running? {
        step := Finish(s.onces[c.once].status.runner, true);
      } else {
        step := Do(id);
      }
    case InCall => step := Finish(id, true);
    case _ => step := Drop(id);
  }

  lemma StepsAdvance(s: Requests, step: Step, other: nat)
    requires Enabled(s, step) && !step.Lookup?
    ensures step.id in s.callers && step.id in Next(s, step).callers
    ensures ToGo(Next(s, step).callers[step.id].phase) < ToGo(s.callers[step.id].phase)
    ensures other != step.id && other in s.callers ==>
              other in Next(s, step).callers && Next(s, step).callers[other] == s.callers[other]
  {
  }

  /** A caller that has returned waited for a registration call of its own email that has finished. */
  lemma ReturnsAfterACall(s: Requests, id: nat)
    requires Reachable(s) && id in s.callers && s.callers[id].phase == Returned
    ensures At(s, id) && s.onces[s.callers[id].once].email == s.callers[id].email
    ensures s.onces[s.callers[id].once].status.Done?
  {
    ReachableInv(s);
    assert CallerOk(s, id);
  }

  /** A request that arrives while no failed entry of its email waits to be dropped is never
      handed a failed entry: it finds a success, or a call that has yet to finish. */
  lemma NextRequestTriesAgain(s: Requests, id: nat, email: string)
    requires Reachable(s) && id !in s.callers
    requires forall other :: other in s.callers && s.callers[other].phase == Failed ==> s.callers[other].email != email
    ensures Enabled(s, Lookup(id, email))
    ensures var t := Next(s, Lookup(id, email));
            At(t, id) && t.onces[t.callers[id].once].email == email && t.onces[t.callers[id].once].status != Done(false)
  {
    ReachableInv(s);
    if email in s.registrations && s.onces[s.registrations[email]].status == Done(false) {
      assert Registered(s, s.registrations[email]);
    }
  }

  /** The source's check that the map still holds the caller's own entry never fails. */
  lemma DropGuardAlwaysHolds(s: Requests, id: nat)
    requires Reachable(s) && id in s.callers && s.callers[id].phase == Failed
    ensures At(s, id) && Registered(s, s.callers[id].once)
  {
    ReachableInv(s);
    assert CallerOk(s, id);
  }

  // ---------------------------------------------------------------- one caller at a time

  class OnceCell {
    var done: bool

    constructor ()
      ensures !done
    {
      done := false;
    }
  }

  class HarnessProvider {
    var registrations: map<string, OnceCell>
    var calls: seq<string>   // the EnsureMember calls made so far

    ghost predicate Valid()
      reads this, registrations.Values
    {
      forall email :: email in registrations ==> registrations[email].done
    }

    constructor ()
      ensures Valid() && registrations == map[] && calls == []
    {
      registrations := map[];
      calls := [];
    }

    /** `succeeds` is what EnsureMember would answer. */
    method Register(email: string, succeeds: bool)
      requires Valid()
      modifies this
      ensures Valid()
      ensures calls == if email in old(registrations) then old(calls) else old(calls) + [email]
      ensures registrations.Keys == if succeeds || email in old(registrations) then old(registrations).Keys + {email}
                                    else old(registrations).Keys
      ensures forall e :: e in old(registrations) ==> e in registrations && registrations[e] == old(registrations)[e]
    {
      var once: OnceCell;
      if email in registrations {
        once := registrations[email];
      } else {
        once := new OnceCell();
        registrations := registrations[email := once];
      }
      var failure := false;
      if !once.done {
        once.done := true;
        calls := calls + [email];
        failure := !succeeds;
      }
      if !failure {
        return;
      }
      if email in registrations && registrations[email] == once {
        registrations := registrations - {email};
      }
    }
  }
}
