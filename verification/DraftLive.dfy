/** The draft room's push protocol (app/draft/live.go).

    `LiveUpdates` keeps the detector's two fields.  Each of its methods is one locked
    section of the source; `current` is the fingerprint that was read before the lock
    was taken.  The `Room` state machine then runs those sections from any number of
    goroutines at once: reading, locking and broadcasting are separate steps, and a client
    may leave at any of them. */
module DraftLive {
  import opened Text

  const STATE_EVENT := "draft:state"

  datatype Detector = Detector(last: string, lastGeneration: nat)

  datatype Event = Event(name: string, generation: nat)

  /** observe: the new detector, and whether a change was recorded. */
  function ObserveLocked(d: Detector, current: string): (Detector, bool)
  {
    if current == "" then (d, false)
    else if d.last == "" then (d.(last := current), false)
    else if current == d.last then (d, false)
    else (d.(last := current), true)
  }

  /** Sink: the new detector, and whether the event goes out. */
  function SinkLocked(d: Detector, event: Event, current: string): (Detector, bool)
  {
    var stale := event.name == STATE_EVENT && event.generation <= d.lastGeneration;
    var d' := if event.generation > d.lastGeneration
              then Detector(current, event.generation) else d;
    (d', !stale)
  }

  class LiveUpdates {
    var last: string
    var lastGeneration: nat

    function State(): Detector
      reads this
    {
      Detector(last, lastGeneration)
    }

    constructor ()
      ensures State() == Detector("", 0)
    {
      last, lastGeneration := "", 0;
    }

    method Observe(current: string, broadcast: bool) returns (changed: bool, announced: bool)
      modifies this
      ensures (State(), changed) == ObserveLocked(old(State()), current)
      ensures announced == (changed && broadcast)
    {
      announced := false;
      if current == "" {
        return false, false;
      }
      if last == "" {
        last := current;
        return false, false;
      }
      if current == last {
        return false, false;
      }
      last := current;
      if broadcast {
        announced := true;
      }
      changed := true;
    }

    /** The join handler, run without interruption: true when the client is sent a repair. */
    method SyncJoiningClient(current: string, since: string, clientCount: nat) returns (repaired: bool)
      modifies this
      ensures repaired == (current != "" && since != current)
      ensures lastGeneration == old(lastGeneration)
      ensures last == if current != "" && clientCount == 1 then current else old(last)
    {
      if current == "" {
        return false;
      }
      if clientCount == 1 {
        last := current;
      }
      if since == current {
        return false;
      }
      repaired := true;
    }

    method Sink(event: Event, current: string) returns (sent: bool)
      modifies this
      ensures (State(), sent) == SinkLocked(old(State()), event, current)
    {
      var highest := lastGeneration;
      var stale := event.name == STATE_EVENT && event.generation <= highest;
      if event.generation > highest {
        last := current;
        lastGeneration := event.generation;
      }
      if stale {
        return false;
      }
      sent := true;
    }

    method SetDraftEventSink()
      modifies this
      ensures State() == old(State()).(lastGeneration := 0)
    {
      lastGeneration := 0;
    }
  }

  // ---------------------------------------------------------------- the room

  type ClientId = nat

  /** How far a join handler has come.  `read` is the fingerprint it read. */
  datatype Phase =
    | Registered
    | HasRead(read: string)
    | Counted(read: string, first: bool)
    | Baselined(read: string)

  datatype Join = Join(since: string, phase: Phase)

  /** What is announced to the room: a detected change, or an event of the sink. */
  datatype Notice = Changed | Sent(event: Event)

  datatype Startup = NotStarted | Starting | Started

  /** `history` lists the fingerprints of all committed versions, oldest first.
      `clients` maps a connected client to the newest version it has read. */
  datatype Room = Room(
    history: seq<string>,
    detector: Detector,
    startup: Startup,
    clients: map<ClientId, nat>,
    joins: map<ClientId, Join>,          // running join handlers, their client gone or not
    observers: multiset<string>,         // observe calls that have read but not locked
    sinks: multiset<(Event, string)>,    // sink calls that have read but not locked
    pending: multiset<Notice>,           // decided but not yet broadcast
    sent: seq<Event>                     // sink events broadcast since the sink was installed
  ) {
    function Version(): nat
      requires history != []
    {
      |history| - 1
    }

    function Current(): string
      requires history != []
    {
      history[|history| - 1]
    }
  }

  /** TickLock is the locked section of a tick's observe, StartLock that of Start's. */
  datatype Step =
    | Commit(fingerprint: string)
    | StartRead
    | StartLock(read: string)
    | TickRead
    | TickLock(read: string)
    | SinkRead(event: Event)
    | SinkLock(event: Event, read: string)
    | Broadcast(notice: Notice)
    | Register(client: ClientId, seen: nat, since: string)
    | JoinRead(client: ClientId)
    | JoinCount(client: ClientId)
    | JoinBaseline(client: ClientId)
    | JoinRepair(client: ClientId)
    | Leave(client: ClientId)
    | Install

  /** A process that has mounted the handler and not yet called Start. */
  function Opened(fingerprint: string): Room
  {
    Room([fingerprint], Detector("", 0), NotStarted, map[], map[], multiset{}, multiset{}, multiset{}, [])
  }

  /** A page's since token was taken no later than the state the page shows. */
  predicate Honest(s: Room, seen: nat, since: string)
  {
    seen < |s.history| &&
    (since == "" || exists v :: 0 <= v <= seen && s.history[v] == since)
  }

  predicate Enabled(s: Room, step: Step)
  {
    s.history != [] &&
    match step
    case Commit(fp) => fp != "" && fp !in s.history
    case StartRead => s.startup == NotStarted
    case StartLock(read) => s.startup == Starting && read in s.observers
    case TickRead => s.startup == Started
    case TickLock(read) => s.startup == Started && read in s.observers
    case SinkRead(_) => true
    case SinkLock(event, read) => (event, read) in s.sinks
    case Broadcast(notice) => notice in s.pending
    case Register(c, seen, since) => c !in s.clients && c !in s.joins && Honest(s, seen, since)
    case JoinRead(c) => c in s.joins && s.joins[c].phase.Registered?
    case JoinCount(c) => c in s.joins && s.joins[c].phase.HasRead?
    case JoinBaseline(c) => c in s.joins && s.joins[c].phase.Counted?
    case JoinRepair(c) => c in s.joins && s.joins[c].phase.Baselined?
    case Leave(c) => c in s.clients
    case Install => true
  }

  /** Every connected client reads the current state. */
  function AllRead(s: Room): map<ClientId, nat>
    requires s.history != []
  {
    map c | c in s.clients :: s.Version()
  }

  function WithPhase(s: Room, c: ClientId, phase: Phase): Room
    requires c in s.joins
  {
    s.(joins := s.joins[c := s.joins[c].(phase := phase)])
  }

  function Observed(s: Room, read: string, broadcast: bool): Room
  {
    var (d, changed) := ObserveLocked(s.detector, read);
    s.(detector := d, observers := s.observers - multiset{read},
       pending := if changed && broadcast then s.pending + multiset{Changed} else s.pending)
  }

  function Next(s: Room, step: Step): Room
    requires Enabled(s, step)
  {
    match step
    case Commit(fp) => s.(history := s.history + [fp])
    case StartRead => s.(startup := Starting, observers := s.observers + multiset{s.Current()})
    case StartLock(read) => Observed(s, read, false).(startup := Started)
    case TickRead => s.(observers := s.observers + multiset{s.Current()})
    case TickLock(read) => Observed(s, read, true)
    case SinkRead(event) => s.(sinks := s.sinks + multiset{(event, s.Current())})
    case SinkLock(event, read) =>
      var (d, goes) := SinkLocked(s.detector, event, read);
      s.(detector := d, sinks := s.sinks - multiset{(event, read)},
         pending := if goes then s.pending + multiset{Sent(event)} else s.pending)
    case Broadcast(notice) =>
      s.(pending := s.pending - multiset{notice}, clients := AllRead(s),
         sent := if notice.Sent? then s.sent + [notice.event] else s.sent)
    case Register(c, seen, since) =>
      s.(clients := s.clients[c := seen], joins := s.joins[c := Join(since, Registered)])
    case JoinRead(c) => WithPhase(s, c, HasRead(s.Current()))
    case JoinCount(c) => WithPhase(s, c, Counted(s.joins[c].phase.read, |s.clients| == 1))
    case JoinBaseline(c) =>
      var phase := s.joins[c].phase;
      WithPhase(s, c, Baselined(phase.read))
        .(detector := if phase.first then s.detector.(last := phase.read) else s.detector)
    case JoinRepair(c) =>
      var join := s.joins[c];
      s.(joins := s.joins - {c},
         clients := if join.since != join.phase.read && c in s.clients
                    then s.clients[c := s.Version()] else s.clients)
    case Leave(c) => s.(clients := s.clients - {c})
    case Install => s.(detector := s.detector.(lastGeneration := 0), sent := [])
  }

  ghost predicate Runs(s: Room, steps: seq<Step>, t: Room)
    decreases |steps|
  {
    if steps == [] then s == t
    else Enabled(s, steps[0]) && Runs(Next(s, steps[0]), steps[1..], t)
  }

  // ---------------------------------------------------------------- the guarantee

  predicate PhaseRead(s: Room, phase: Phase)
  {
    phase.Registered? || phase.read in s.history
  }

  /** A handler that has not read yet, or has read the current fingerprint, leaves
      its client current when it finishes. */
  predicate WillRepair(s: Room, phase: Phase)
    requires s.history != []
  {
    phase.Registered? || phase.read == s.Current()
  }

  predicate Covered(s: Room, c: ClientId)
    requires s.history != [] && c in s.clients
  {
    s.clients[c] == s.Version() || s.pending != multiset{} || (c in s.joins && WillRepair(s, s.joins[c].phase))
  }

  predicate AllCovered(s: Room)
    requires s.history != []
  {
    forall c :: c in s.clients ==> Covered(s, c)
  }

  /** `last` is current, or a handler that counted one client is about to make it so. */
  predicate Primed(s: Room)
    requires s.history != []
  {
    s.detector.last == s.Current() ||
    exists c :: c in s.joins && s.joins[c].phase == Counted(s.Current(), true)
  }

  predicate HistoryOk(s: Room)
  {
    && s.history != [] && "" !in s.history
    && (forall i, j :: 0 <= i < j < |s.history| ==> s.history[i] != s.history[j])
  }

  predicate ReadsOk(s: Room)
  {
    && (s.detector.last in s.history || (s.detector.last == "" && s.startup != Started))
    && (forall read :: read in s.observers ==> read in s.history)
    && (forall p :: p in s.sinks ==> p.1 in s.history)
    && (forall c :: c in s.joins ==> PhaseRead(s, s.joins[c].phase))
  }

  predicate ClientsOk(s: Room)
  {
    && (forall c :: c in s.clients ==> s.clients[c] < |s.history|)
    && (forall c :: c in s.joins && c in s.clients ==> Honest(s, s.clients[c], s.joins[c].since))
  }

  predicate Shape(s: Room)
  {
    HistoryOk(s) && ReadsOk(s) && ClientsOk(s)
  }

  /** Once `last` is current, the detector stays silent; every client must be current or
      about to be told. */
  predicate Guarded(s: Room)
    requires s.history != []
  {
    Primed(s) ==> AllCovered(s)
  }

  predicate Inv(s: Room)
  {
    Shape(s) && Guarded(s)
  }

  /** The two steps that can silence the detector over a client that is behind: Start's own
      baseline, and a handler that counts one client when its own has left and another stays. */
  predicate Loses(s: Room, step: Step)
    requires Enabled(s, step)
  {
    match step
    case StartLock(read) => read == s.Current() && !AllCovered(s)
    case JoinCount(c) =>
      |s.clients| == 1 && c !in s.clients && s.joins[c].phase.read == s.Current() && !AllCovered(s)
    case _ => false
  }

  // ---------------------------------------------------------------- the shape is kept

  lemma HonestGrows(s: Room, seen: nat, since: string, t: Room, seen': nat)
    requires Honest(s, seen, since) && seen <= seen' < |t.history| && s.history <= t.history
    ensures Honest(t, seen', since)
  {
    if since != "" {
      var v :| 0 <= v <= seen && s.history[v] == since;
      assert t.history[v] == since;
    }
  }

  lemma ClientsKept(s: Room, step: Step)
    requires HistoryOk(s) && ClientsOk(s) && Enabled(s, step)
    ensures ClientsOk(Next(s, step))
  {
    var t := Next(s, step);
    forall c | c in t.joins && c in t.clients
      ensures Honest(t, t.clients[c], t.joins[c].since)
    {
      if c in s.joins {
        HonestGrows(s, s.clients[c], s.joins[c].since, t, t.clients[c]);
      } else {
        HonestGrows(s, step.seen, step.since, t, t.clients[c]);
      }
    }
  }

  lemma ObserveReadsKept(s: Room, read: string, broadcast: bool)
    requires HistoryOk(s) && ReadsOk(s) && read in s.observers
    ensures ReadsOk(Observed(s, read, broadcast)) && Observed(s, read, broadcast).detector.last in s.history
  {
  }

  lemma SinkReadsKept(s: Room, event: Event, read: string)
    requires HistoryOk(s) && ReadsOk(s) && Enabled(s, SinkLock(event, read))
    ensures ReadsOk(Next(s, SinkLock(event, read)))
  {
    assert (event, read) in s.sinks && (event, read).1 == read;
  }

  /** Every phase a handler moves to holds a fingerprint that has been committed. */
  lemma PhaseReadsKept(s: Room, c: ClientId, phase: Phase)
    requires ReadsOk(s) && c in s.joins && PhaseRead(s, phase)
    ensures ReadsOk(WithPhase(s, c, phase))
  {
  }

  lemma BaselineReadsKept(s: Room, c: ClientId)
    requires HistoryOk(s) && ReadsOk(s) && Enabled(s, JoinBaseline(c))
    ensures ReadsOk(Next(s, JoinBaseline(c)))
  {
    assert s.joins[c].phase.read in s.history;
  }

  lemma NewReadsKept(s: Room, step: Step)
    requires HistoryOk(s) && ReadsOk(s) && Enabled(s, step)
    requires step.StartRead? || step.TickRead? || step.SinkRead?
    ensures ReadsOk(Next(s, step))
  {
    assert s.Current() in s.history;
  }

  lemma CommitReadsKept(s: Room, fp: string)
    requires HistoryOk(s) && ReadsOk(s) && Enabled(s, Commit(fp))
    ensures ReadsOk(Next(s, Commit(fp)))
  {
    assert forall x :: x in s.history ==> x in Next(s, Commit(fp)).history;
  }

  lemma ClientReadsKept(s: Room, step: Step)
    requires HistoryOk(s) && ReadsOk(s) && Enabled(s, step)
    requires step.Broadcast? || step.Register? || step.JoinRepair? || step.Leave? || step.Install?
    ensures ReadsOk(Next(s, step))
  {
  }

  lemma ReadsKept(s: Room, step: Step)
    requires HistoryOk(s) && ReadsOk(s) && Enabled(s, step)
    ensures ReadsOk(Next(s, step))
  {
    match step
    case Commit(fp) => CommitReadsKept(s, fp);
    case StartLock(read) => ObserveReadsKept(s, read, false);
    case TickLock(read) => ObserveReadsKept(s, read, true);
    case SinkLock(event, read) => SinkReadsKept(s, event, read);
    case JoinRead(c) => PhaseReadsKept(s, c, HasRead(s.Current()));
    case JoinCount(c) => PhaseReadsKept(s, c, Counted(s.joins[c].phase.read, |s.clients| == 1));
    case JoinBaseline(c) => BaselineReadsKept(s, c);
    case StartRead => NewReadsKept(s, step);
    case TickRead => NewReadsKept(s, step);
    case SinkRead(_) => NewReadsKept(s, step);
    case _ => ClientReadsKept(s, step);
  }

  lemma ShapeKept(s: Room, step: Step)
    requires Shape(s) && Enabled(s, step)
    ensures Shape(Next(s, step))
  {
    ReadsKept(s, step);
    ClientsKept(s, step);
  }

  // ---------------------------------------------------------------- the guarantee is kept

  /** Nothing that covers a client is taken from it. */
  lemma CoverageKept(s: Room, t: Room)
    requires s.history != [] && AllCovered(s)
    requires t.history == s.history && t.pending == s.pending && t.joins == s.joins
    requires forall c :: c in t.clients ==> c in s.clients && t.clients[c] == s.clients[c]
    ensures AllCovered(t)
  {
    forall c | c in t.clients
      ensures Covered(t, c)
    {
      assert Covered(s, c);
    }
  }

  lemma GuardedCommit(s: Room, fp: string)
    requires HistoryOk(s) && ReadsOk(s) && Enabled(s, Commit(fp))
    ensures Guarded(Next(s, Commit(fp)))
  {
    var t := Next(s, Commit(fp));
    assert t.Current() == fp;
    forall c | c in t.joins && !t.joins[c].phase.Registered?
      ensures t.joins[c].phase.read != fp
    {
      assert PhaseRead(s, s.joins[c].phase);
    }
  }

  lemma GuardedTick(s: Room, read: string)
    requires HistoryOk(s) && ReadsOk(s) && Guarded(s) && Enabled(s, TickLock(read))
    ensures Guarded(Next(s, TickLock(read)))
  {
    var t := Next(s, TickLock(read));
    if ObserveLocked(s.detector, read).1 {
      assert Changed in t.pending;
    } else {
      assert t.detector == s.detector;
      if Primed(t) {
        assert Primed(s);
        CoverageKept(s, t);
      }
    }
  }

  lemma GuardedSink(s: Room, event: Event, read: string)
    requires HistoryOk(s) && Guarded(s) && Enabled(s, SinkLock(event, read))
    ensures Guarded(Next(s, SinkLock(event, read)))
  {
    var t := Next(s, SinkLock(event, read));
    if SinkLocked(s.detector, event, read).1 {
      assert Sent(event) in t.pending;
    } else if Primed(t) {
      assert Primed(s);
      CoverageKept(s, t);
    }
  }

  /** Reads, leaves and a new sink change nothing that the guarantee speaks of. */
  lemma GuardedElsewhere(s: Room, step: Step)
    requires s.history != [] && Guarded(s) && Enabled(s, step)
    requires step.StartRead? || step.TickRead? || step.SinkRead? || step.Leave? || step.Install?
    ensures Guarded(Next(s, step))
  {
    var t := Next(s, step);
    if Primed(t) {
      assert Primed(s);
      CoverageKept(s, t);
    }
  }

  lemma GuardedJoin(s: Room, step: Step)
    requires HistoryOk(s) && ClientsOk(s) && Guarded(s) && Enabled(s, step)
    requires step.Register? || step.JoinRead?
    ensures Guarded(Next(s, step))
  {
    var t := Next(s, step);
    if Primed(t) {
      assert Primed(s);
      forall c | c in t.clients
        ensures Covered(t, c)
      {
        assert c in s.clients ==> Covered(s, c);
      }
    }
  }

  lemma GuardedBaseline(s: Room, j: ClientId)
    requires HistoryOk(s) && Guarded(s) && Enabled(s, JoinBaseline(j))
    ensures Guarded(Next(s, JoinBaseline(j)))
  {
    var phase, t := s.joins[j].phase, Next(s, JoinBaseline(j));
    if Primed(t) {
      assert phase.first && phase.read == s.Current() ==> phase == Counted(s.Current(), true);
      assert Primed(s);
      forall c | c in t.clients
        ensures Covered(t, c)
      {
        assert Covered(s, c);
      }
    }
  }

  lemma GuardedRepair(s: Room, j: ClientId)
    requires HistoryOk(s) && ClientsOk(s) && Guarded(s) && Enabled(s, JoinRepair(j))
    ensures Guarded(Next(s, JoinRepair(j)))
  {
    var t := Next(s, JoinRepair(j));
    if Primed(t) {
      assert Primed(s);
      assert j in s.clients ==> Honest(s, s.clients[j], s.joins[j].since);
      forall c | c in t.clients
        ensures Covered(t, c)
      {
        assert Covered(s, c);
      }
    }
  }

  /** A handler that counts: the guarantee breaks exactly when the one client is another's,
      is behind, and no notice is on its way. */
  lemma GuardedCountIff(s: Room, j: ClientId)
    requires HistoryOk(s) && Guarded(s) && Enabled(s, JoinCount(j))
    ensures Guarded(Next(s, JoinCount(j))) <==> !Loses(s, JoinCount(j))
  {
    var t := Next(s, JoinCount(j));
    var read := s.joins[j].phase.read;
    assert forall c :: c in s.clients ==> (Covered(t, c) <==> Covered(s, c));
    assert AllCovered(t) <==> AllCovered(s);
    if |s.clients| == 1 && read == s.Current() {
      assert t.joins[j].phase == Counted(t.Current(), true);
      if j in s.clients {
        assert |s.clients.Keys - {j}| == 0;
        assert Covered(s, j);
      }
    } else if Primed(t) {
      assert Primed(s);
    }
  }

  /** Start's baseline: it breaks exactly when the fingerprint it read is still current and some
      client is neither there yet nor about to be told, be it the very first baseline or not. */
  lemma StartBaselineSafeIff(s: Room, read: string)
    requires HistoryOk(s) && ReadsOk(s) && Guarded(s) && Enabled(s, StartLock(read))
    ensures Guarded(Next(s, StartLock(read))) <==> read != s.Current() || AllCovered(s)
  {
    var t := Next(s, StartLock(read));
    assert read in s.history && t.detector.last == read;
    assert forall c :: c in s.clients ==> (Covered(t, c) <==> Covered(s, c));
    if read != s.Current() && Primed(t) {
      assert Primed(s);
    }
  }

  /** Over all steps of commits, ticks, sink calls, joins, leaves and the start: the guarantee is
      kept exactly by the steps that lose nothing. */
  lemma GuardedIff(s: Room, step: Step)
    requires Inv(s) && Enabled(s, step)
    ensures Guarded(Next(s, step)) <==> !Loses(s, step)
  {
    match step
    case Commit(fp) => GuardedCommit(s, fp);
    case StartLock(read) => StartBaselineSafeIff(s, read);
    case TickLock(read) => GuardedTick(s, read);
    case SinkLock(event, read) => GuardedSink(s, event, read);
    case Broadcast(_) =>
    case Register(_, _, _) => GuardedJoin(s, step);
    case JoinRead(_) => GuardedJoin(s, step);
    case JoinCount(c) => GuardedCountIff(s, c);
    case JoinBaseline(c) => GuardedBaseline(s, c);
    case JoinRepair(c) => GuardedRepair(s, c);
    case _ => GuardedElsewhere(s, step);
  }

  // ---------------------------------------------------------------- main results

  /** A run none of whose steps loses a change. */
  ghost predicate Careful(s: Room, steps: seq<Step>)
    decreases |steps|
  {
    steps == [] ||
    (Enabled(s, steps[0]) && !Loses(s, steps[0]) && Careful(Next(s, steps[0]), steps[1..]))
  }

  ghost predicate GuardedThroughout(s: Room, steps: seq<Step>)
    decreases |steps|
  {
    s.history != [] && Guarded(s) &&
    (steps == [] || (Enabled(s, steps[0]) && GuardedThroughout(Next(s, steps[0]), steps[1..])))
  }

  /** Along every run the guarantee holds throughout exactly when no step loses. */
  lemma {:induction false} GuardedAlongRunIff(s: Room, steps: seq<Step>, t: Room)
    requires Inv(s) && Runs(s, steps, t)
    ensures GuardedThroughout(s, steps) <==> Careful(s, steps)
    ensures Careful(s, steps) ==> Inv(t)
    decreases |steps|
  {
    if steps != [] {
      GuardedIff(s, steps[0]);
      ShapeKept(s, steps[0]);
      if !Loses(s, steps[0]) {
        GuardedAlongRunIff(Next(s, steps[0]), steps[1..], t);
      }
    }
  }

  /** Start takes its baseline before the room opens, and no handler counts for a client that has
      left. */
  ghost predicate Orderly(s: Room, steps: seq<Step>)
    decreases |steps|
  {
    steps == [] ||
    (Enabled(s, steps[0]) && (steps[0].StartLock? ==> s.clients == map[]) &&
     (steps[0].JoinCount? ==> steps[0].client in s.clients) && Orderly(Next(s, steps[0]), steps[1..]))
  }

  /** Such a run loses nothing, so the guarantee holds throughout it. */
  lemma {:induction false} OrderlyIsCareful(s: Room, steps: seq<Step>)
    requires Orderly(s, steps)
    ensures Careful(s, steps)
    decreases |steps|
  {
    if steps != [] {
      OrderlyIsCareful(Next(s, steps[0]), steps[1..]);
    }
  }

  // ---------------------------------------------------------------- the program's own runs

  /** The process starts the detector before it listens: clients register only once Start is done. */
  ghost predicate OpensAfterStart(s: Room, steps: seq<Step>)
    decreases |steps|
  {
    steps == [] ||
    (Enabled(s, steps[0]) && (steps[0].Register? ==> s.startup == Started) &&
     OpensAfterStart(Next(s, steps[0]), steps[1..]))
  }

  /** A handler whose own client has left counts the one client that stays, which is behind and about
      to be told nothing. */
  predicate CountsAway(s: Room, step: Step)
    requires Enabled(s, step)
  {
    step.JoinCount? && step.client !in s.clients && s.joins[step.client].phase.read == s.Current() &&
    |s.clients| == 1 &&
    forall d :: d in s.clients ==>
      s.clients[d] < s.Version() && s.pending == multiset{} &&
      (d in s.joins ==> !s.joins[d].phase.Registered? && s.joins[d].phase.read != s.Current())
  }

  ghost predicate NeverCountsAway(s: Room, steps: seq<Step>)
    decreases |steps|
  {
    steps == [] ||
    (Enabled(s, steps[0]) && !CountsAway(s, steps[0]) && NeverCountsAway(Next(s, steps[0]), steps[1..]))
  }

  /** Before Start is done nobody is in the room. */
  predicate ClosedUntilStarted(s: Room)
  {
    s.startup != Started ==> s.clients == map[] && s.joins == map[]
  }

  lemma OneClient(clients: map<ClientId, nat>) returns (d: ClientId)
    requires |clients| == 1
    ensures d in clients && forall c :: c in clients ==> c == d
  {
    d :| d in clients;
    assert |clients.Keys - {d}| == 0;
  }

  lemma OnlyCountsAwayLose(s: Room, step: Step)
    requires HistoryOk(s) && ClientsOk(s) && ClosedUntilStarted(s) && Enabled(s, step)
    ensures Loses(s, step) <==> CountsAway(s, step)
  {
    if step.JoinCount? && |s.clients| == 1 {
      var d := OneClient(s.clients);
      assert AllCovered(s) <==> Covered(s, d);
    }
  }

  lemma {:induction false} OwnRunIff(s: Room, steps: seq<Step>, t: Room)
    requires Inv(s) && ClosedUntilStarted(s) && Runs(s, steps, t) && OpensAfterStart(s, steps)
    ensures GuardedThroughout(s, steps) <==> NeverCountsAway(s, steps)
    ensures NeverCountsAway(s, steps) ==> Inv(t)
    decreases |steps|
  {
    if steps != [] {
      OnlyCountsAwayLose(s, steps[0]);
      GuardedIff(s, steps[0]);
      if !Loses(s, steps[0]) {
        ShapeKept(s, steps[0]);
        OwnRunIff(Next(s, steps[0]), steps[1..], t);
      } else {
      }
    }
  }

  /** On the program's own runs the guarantee holds throughout exactly when no handler counts, for a
      client that has left, one that is behind. */
  lemma ProgramRunIff(first: string, steps: seq<Step>, t: Room)
    requires first != "" && Runs(Opened(first), steps, t) && OpensAfterStart(Opened(first), steps)
    ensures GuardedThroughout(Opened(first), steps) <==> NeverCountsAway(Opened(first), steps)
    ensures NeverCountsAway(Opened(first), steps) ==> Inv(t)
  {
    OwnRunIff(Opened(first), steps, t);
  }

  // ---------------------------------------------------------------- after a loss

  lemma {:induction false} ShapeAlongRun(s: Room, steps: seq<Step>, t: Room)
    requires Shape(s) && Runs(s, steps, t)
    ensures Shape(t)
    decreases |steps|
  {
    if steps != [] {
      ShapeKept(s, steps[0]);
      ShapeAlongRun(Next(s, steps[0]), steps[1..], t);
    }
  }

  /** Whatever has been lost, the next commit restores the guarantee. */
  lemma CommitRestores(s: Room, fp: string)
    requires Shape(s) && Enabled(s, Commit(fp))
    ensures Inv(Next(s, Commit(fp)))
  {
    ShapeKept(s, Commit(fp));
    GuardedCommit(s, fp);
  }

  /** A loss lasts no longer than to the next commit: after any run at all, a commit and steps that
      lose nothing, the guarantee holds, and at rest a tick makes every client current. */
  lemma LossHeals(first: string, before: seq<Step>, s: Room, fp: string, after: seq<Step>, t: Room)
    requires first != "" && Runs(Opened(first), before, s) && Enabled(s, Commit(fp))
    requires Runs(Next(s, Commit(fp)), after, t) && Careful(Next(s, Commit(fp)), after)
    ensures Inv(t)
    ensures AtRest(t) && t.startup == Started ==> WholeTick(t).clients == AllRead(t)
  {
    ShapeAlongRun(Opened(first), before, s);
    CommitRestores(s, fp);
    GuardedAlongRunIff(Next(s, Commit(fp)), after, t);
    if AtRest(t) && t.startup == Started {
      TickMakesCurrent(t);
    }
  }

  // ---------------------------------------------------------------- reachable rooms

  /** Some run without a losing step leads from the one room to the other. */
  ghost predicate Reaches(from: Room, s: Room)
  {
    exists steps :: Runs(from, steps, s) && Careful(from, steps)
  }

  ghost predicate Reachable(s: Room)
  {
    exists fp :: fp != "" && Reaches(Opened(fp), s)
  }

  lemma ReachableInv(s: Room)
    requires Reachable(s)
    ensures Inv(s)
  {
    var fp :| fp != "" && Reaches(Opened(fp), s);
    var steps :| Runs(Opened(fp), steps, s) && Careful(Opened(fp), steps);
    GuardedAlongRunIff(Opened(fp), steps, s);
  }

  /** No handler is running and no notice is on its way. */
  predicate AtRest(s: Room)
  {
    s.history != [] && s.joins == map[] && s.pending == multiset{}
  }

  /** Whenever `last` is the current fingerprint and nothing is in flight, no client is behind. */
  lemma NoClientBehind(s: Room)
    requires Reachable(s) && AtRest(s) && s.detector.last == s.Current()
    ensures s.clients == AllRead(s)
  {
    ReachableInv(s);
    AllReadAtRest(s);
  }

  lemma AllReadAtRest(s: Room)
    requires AtRest(s) && AllCovered(s)
    ensures s.clients == AllRead(s)
  {
    assert forall c :: c in s.clients ==> Covered(s, c);
  }

  /** One detector tick that nothing interrupts. */
  function WholeTick(s: Room): Room
    requires s.history != [] && s.startup == Started
  {
    var locked := Next(Next(s, TickRead), TickLock(s.Current()));
    if ObserveLocked(s.detector, s.Current()).1 then Next(locked, Broadcast(Changed)) else locked
  }

  /** What it comes to: nothing, or a new `last` and every client told. */
  function Ticked(s: Room): Room
    requires s.history != []
  {
    if s.detector.last == s.Current() then s
    else s.(detector := s.detector.(last := s.Current()), clients := AllRead(s))
  }

  lemma TickLockRecords(s: Room)
    requires HistoryOk(s) && ReadsOk(s) && s.startup == Started
    ensures Next(Next(s, TickRead), TickLock(s.Current())) ==
            s.(detector := s.detector.(last := s.Current()),
               pending := if s.detector.last == s.Current() then s.pending else s.pending + multiset{Changed})
  {
    assert s.Current() in s.history && s.detector.last in s.history;
    assert s.observers + multiset{s.Current()} - multiset{s.Current()} == s.observers;
  }

  lemma TickAnnounces(s: Room, locked: Room)
    requires s.history != [] && s.detector.last != s.Current()
    requires locked == s.(detector := s.detector.(last := s.Current()), pending := s.pending + multiset{Changed})
    ensures Next(locked, Broadcast(Changed)) == Ticked(s)
  {
    assert s.pending + multiset{Changed} - multiset{Changed} == s.pending;
    assert AllRead(locked) == AllRead(s);
  }

  lemma WholeTickIs(s: Room)
    requires HistoryOk(s) && ReadsOk(s) && s.startup == Started
    ensures WholeTick(s) == Ticked(s)
  {
    TickLockRecords(s);
    assert s.Current() in s.history && s.detector.last in s.history;
    if s.detector.last != s.Current() {
      TickAnnounces(s, Next(Next(s, TickRead), TickLock(s.Current())));
    }
  }

  /** A tick that nothing interrupts records the current version, and leaves every client current
      or about to be told. */
  lemma TickCovers(s: Room)
    requires Inv(s) && s.startup == Started
    ensures WholeTick(s) == Ticked(s)
    ensures AllCovered(Ticked(s)) && Ticked(s).detector.last == s.Current() && Ticked(s).history == s.history
  {
    WholeTickIs(s);
  }

  /** From every reachable state at rest every client has read the current version once a tick
      has run. */
  lemma TickCatchesUp(s: Room)
    requires Reachable(s) && AtRest(s) && s.startup == Started
    ensures WholeTick(s).clients == AllRead(s)
  {
    ReachableInv(s);
    TickMakesCurrent(s);
  }

  lemma TickMakesCurrent(s: Room)
    requires Inv(s) && AtRest(s) && s.startup == Started
    ensures WholeTick(s).clients == AllRead(s)
  {
    WholeTickIs(s);
    if s.detector.last == s.Current() {
      AllReadAtRest(s);
    }
  }

  // ---------------------------------------------------------------- the baseline going back

  /** `a` was committed before `b`. */
  predicate Older(s: Room, a: string, b: string)
  {
    exists i, j :: 0 <= i < j < |s.history| && s.history[i] == a && s.history[j] == b
  }

  /** The fingerprint a step would have `last` hold, if it writes it at all. */
  function Writes(s: Room, step: Step): Option<string>
    requires Enabled(s, step)
  {
    match step
    case StartLock(read) => Some(read)
    case TickLock(read) => Some(read)
    case SinkLock(event, read) => if event.generation > s.detector.lastGeneration then Some(read) else None
    case JoinBaseline(c) => if s.joins[c].phase.first then Some(s.joins[c].phase.read) else None
    case _ => None
  }

  /** `last` goes back exactly when a tick, the start, a newer sink event or a first joiner writes
      a fingerprint it read before `last` was committed. */
  lemma LastMovesBackIff(s: Room, step: Step)
    requires HistoryOk(s) && ReadsOk(s) && Enabled(s, step)
    ensures Older(s, Next(s, step).detector.last, s.detector.last) <==>
            Writes(s, step).Some? && Older(s, Writes(s, step).value, s.detector.last)
  {
    NeverOlder(s, s.detector.last);
    if step.StartLock? || step.TickLock? {
      assert step.read in s.history;
    }
  }

  lemma NeverOlder(s: Room, a: string)
    requires HistoryOk(s)
    ensures !Older(s, a, a)
  {
  }

  // ---------------------------------------------------------------- the order of repairs

  /** A draft:state that went out carries a generation above every event sent before it. */
  predicate SentInOrder(s: Room)
  {
    forall i, j :: 0 <= i < j < |s.sent| && s.sent[j].name == STATE_EVENT ==>
      s.sent[i].generation < s.sent[j].generation
  }

  /** A draft:state broadcast after an event that is no older. */
  predicate Overtaken(s: Room, step: Step)
  {
    step.Broadcast? && step.notice.Sent? && step.notice.event.name == STATE_EVENT &&
    exists e :: e in s.sent && step.notice.event.generation <= e.generation
  }

  /** A step puts a repair out of order exactly when the event it broadcasts has been overtaken. */
  lemma RepairOrderIff(s: Room, step: Step)
    requires SentInOrder(s) && Enabled(s, step)
    ensures SentInOrder(Next(s, step)) <==> !Overtaken(s, step)
  {
    if step.Broadcast? && step.notice.Sent? {
      var t := Next(s, step);
      assert forall i :: 0 <= i < |s.sent| ==> t.sent[i] == s.sent[i];
      if Overtaken(s, step) {
        var e :| e in s.sent && step.notice.event.generation <= e.generation;
        var i :| 0 <= i < |s.sent| && s.sent[i] == e;
        assert t.sent[i] == e && t.sent[|s.sent|] == step.notice.event;
      }
    }
  }

  /** No sink call is under way. */
  predicate SinkIdle(s: Room)
  {
    s.sinks == multiset{} && forall n :: n in s.pending ==> n.Changed?
  }

  /** One consumer calls the sink, and a sink is installed between two of its calls. */
  ghost predicate Serial(s: Room, steps: seq<Step>)
    decreases |steps|
  {
    steps == [] ||
    (Enabled(s, steps[0]) && ((steps[0].SinkRead? || steps[0].Install?) ==> SinkIdle(s)) &&
     Serial(Next(s, steps[0]), steps[1..]))
  }

  /** At most one sink call is under way, and what it has decided to send is the newest so far. */
  predicate SinkOk(s: Room)
  {
    && |s.sinks| <= 1
    && (forall e :: e in s.sent ==> e.generation <= s.detector.lastGeneration)
    && (forall n :: n in s.pending && n.Sent? ==>
          s.sinks == multiset{} && s.pending[n] == 1 && n.event.generation <= s.detector.lastGeneration &&
          (n.event.name == STATE_EVENT ==> forall e :: e in s.sent ==> e.generation < n.event.generation))
    && (forall n, m :: n in s.pending && m in s.pending && n.Sent? && m.Sent? ==> n == m)
  }

  lemma SinkLockOk(s: Room, event: Event, read: string)
    requires SinkOk(s) && Enabled(s, SinkLock(event, read))
    ensures SinkOk(Next(s, SinkLock(event, read)))
  {
    assert (event, read) in s.sinks && |s.sinks - multiset{(event, read)}| == 0;
    assert s.sinks != multiset{};
    assert forall n :: n in s.pending ==> n.Changed?;
  }

  lemma BroadcastOk(s: Room, notice: Notice)
    requires SinkOk(s) && Enabled(s, Broadcast(notice))
    ensures SinkOk(Next(s, Broadcast(notice)))
  {
    assert forall n :: n in s.pending - multiset{notice} ==> n in s.pending;
  }

  lemma SinkUntouched(s: Room, step: Step)
    requires SinkOk(s) && Enabled(s, step) && (step.Install? ==> SinkIdle(s))
    requires !step.SinkRead? && !step.SinkLock? && !step.Broadcast? && !step.StartLock? && !step.TickLock?
    ensures SinkOk(Next(s, step))
  {
  }

  lemma SerialStep(s: Room, step: Step)
    requires SinkOk(s) && Enabled(s, step)
    requires (step.SinkRead? || step.Install?) ==> SinkIdle(s)
    ensures SinkOk(Next(s, step))
  {
    match step
    case SinkRead(_) =>
    case SinkLock(event, read) => SinkLockOk(s, event, read);
    case Broadcast(notice) => BroadcastOk(s, notice);
    case StartLock(_) =>
    case TickLock(_) =>
    case _ => SinkUntouched(s, step);
  }

  /** With one consumer calling the sink, no repair is sent after an event that is as new. */
  lemma {:induction false} RepairsNeverGoBack(s: Room, steps: seq<Step>, t: Room)
    requires SinkOk(s) && SentInOrder(s) && Runs(s, steps, t) && Serial(s, steps)
    ensures SinkOk(t) && SentInOrder(t)
    decreases |steps|
  {
    if steps != [] {
      RepairOrderIff(s, steps[0]);
      SerialStep(s, steps[0]);
      RepairsNeverGoBack(Next(s, steps[0]), steps[1..], t);
    }
  }

  // ---------------------------------------------------------------- what goes out

  /** The highest generation among the sink calls since the sink was installed. */
  function Highest(steps: seq<Step>, from: nat): nat
  {
    if steps == [] then from else Highest(steps[1..], HighestWith(steps[0], from))
  }

  function HighestWith(step: Step, from: nat): nat
  {
    match step
    case SinkLock(event, _) => if event.generation > from then event.generation else from
    case Install => 0
    case _ => from
  }

  lemma HighestNext(s: Room, step: Step)
    requires Enabled(s, step)
    ensures Next(s, step).detector.lastGeneration == HighestWith(step, s.detector.lastGeneration)
  {
  }

  lemma {:induction false} LastGenerationIsHighest(s: Room, steps: seq<Step>, t: Room)
    requires Runs(s, steps, t)
    ensures t.detector.lastGeneration == Highest(steps, s.detector.lastGeneration)
    decreases |steps|
  {
    if steps != [] {
      HighestNext(s, steps[0]);
      LastGenerationIsHighest(Next(s, steps[0]), steps[1..], t);
    }
  }

  /** Every event that reaches the sink goes out, but for a draft:state that is no newer than an event
      handled since the sink was installed. */
  lemma HeldBackIff(s: Room, steps: seq<Step>, t: Room, event: Event, read: string)
    requires Runs(s, steps, t) && Enabled(t, SinkLock(event, read))
    ensures var held := event.name == "draft:state" && event.generation <= Highest(steps, s.detector.lastGeneration);
            Next(t, SinkLock(event, read)).pending == if held then t.pending else t.pending + multiset{Sent(event)}
  {
    LastGenerationIsHighest(s, steps, t);
  }

  /** Apart from the sink's events nothing is announced but a change that a tick has found: the
      baseline moves from one committed state to another. */
  lemma OnlyChangesAreAnnounced(s: Room, step: Step)
    requires HistoryOk(s) && ReadsOk(s) && Enabled(s, step) && !step.SinkLock?
    ensures Next(s, step).pending <= s.pending ||
            (step.TickLock? && Next(s, step).pending == s.pending + multiset{Changed} &&
             s.detector.last in s.history && Next(s, step).detector.last == step.read != s.detector.last)
  {
  }

  // ---------------------------------------------------------------- where the promises stop

  lemma {:induction false} CarefulThen(s: Room, steps: seq<Step>, t: Room, step: Step)
    requires Runs(s, steps, t) && Careful(s, steps) && Enabled(t, step) && !Loses(t, step)
    ensures Runs(s, steps + [step], Next(t, step)) && Careful(s, steps + [step])
    decreases |steps|
  {
    if steps == [] {
      assert [step][1..] == [];
      assert [] + [step] == [step];
    } else {
      assert (steps + [step])[1..] == steps[1..] + [step];
      CarefulThen(Next(s, steps[0]), steps[1..], t, step);
    }
  }

  lemma ReachesItself(from: Room)
    ensures Reaches(from, from)
  {
    assert Runs(from, [], from) && Careful(from, []);
  }

  lemma ReachesNext(from: Room, s: Room, step: Step, t: Room)
    requires Reaches(from, s) && Enabled(s, step) && !Loses(s, step) && Next(s, step) == t
    ensures Reaches(from, t)
  {
    var steps :| Runs(from, steps, s) && Careful(from, steps);
    CarefulThen(from, steps, s, step);
  }

  /** The room after a join handler that nothing interrupts. */
  function WholeJoin(s: Room, c: ClientId): Room
    requires s.history != [] && c in s.joins
  {
    s.(joins := s.joins - {c},
       detector := if |s.clients| == 1 then s.detector.(last := s.Current()) else s.detector,
       clients := if s.joins[c].since != s.Current() && c in s.clients
                  then s.clients[c := s.Version()] else s.clients)
  }

  lemma ReachesWholeJoin(from: Room, s: Room, c: ClientId)
    requires Reaches(from, s) && s.history != [] && c in s.clients && c in s.joins && s.joins[c].phase.Registered?
    ensures Reaches(from, WholeJoin(s, c))
  {
    var join := s.joins[c];
    var first := |s.clients| == 1;
    var s1 := WithPhase(s, c, HasRead(s.Current()));
    ReachesNext(from, s, JoinRead(c), s1);
    var s2 := WithPhase(s, c, Counted(s.Current(), first));
    ReachesNext(from, s1, JoinCount(c), s2);
    ReachesJoinEnd(from, s, c, s2);
  }

  lemma ReachesJoinEnd(from: Room, s: Room, c: ClientId, s2: Room)
    requires s.history != [] && c in s.joins && s2 == WithPhase(s, c, Counted(s.Current(), |s.clients| == 1))
    requires Reaches(from, s2)
    ensures Reaches(from, WholeJoin(s, c))
  {
    var s3 := WithPhase(s, c, Baselined(s.Current()))
                .(detector := if |s.clients| == 1 then s.detector.(last := s.Current()) else s.detector);
    JoinEnd(s, c, s2, s3);
    ReachesNext(from, s2, JoinBaseline(c), s3);
    ReachesNext(from, s3, JoinRepair(c), WholeJoin(s, c));
  }

  lemma JoinEnd(s: Room, c: ClientId, s2: Room, s3: Room)
    requires s.history != [] && c in s.joins && s2 == WithPhase(s, c, Counted(s.Current(), |s.clients| == 1))
    requires s3 == WithPhase(s, c, Baselined(s.Current()))
                     .(detector := if |s.clients| == 1 then s.detector.(last := s.Current()) else s.detector)
    ensures Enabled(s2, JoinBaseline(c)) && Next(s2, JoinBaseline(c)) == s3
    ensures Enabled(s3, JoinRepair(c)) && Next(s3, JoinRepair(c)) == WholeJoin(s, c)
  {
    assert s3.joins - {c} == s.joins - {c};
  }

  /** A room with nothing in flight. */
  function Quiet(history: seq<string>, last: string, startup: Startup, clients: map<ClientId, nat>): Room
  {
    Room(history, Detector(last, 0), startup, clients, map[], multiset{}, multiset{}, multiset{}, [])
  }

  /** Nothing is in flight and `last` is current, so that a whole tick changes nothing; but the
      client `c` is behind. */
  predicate LeftBehind(s: Room, c: ClientId)
  {
    AtRest(s) && s.startup == Started && c in s.clients && s.clients[c] < s.Version() &&
    s.detector.last == s.Current() && WholeTick(s) == s
  }

  lemma QuietIsLeftBehind(first: string, second: string, clients: map<ClientId, nat>, c: ClientId)
    requires first != "" && second != "" && first != second && c in clients && clients[c] == 0
    ensures LeftBehind(Quiet([first, second], second, Started, clients), c)
  {
    WholeTickIs(Quiet([first, second], second, Started, clients));
  }

  /** The room at the moment the program begins to listen. */
  function Listening(first: string): Room
  {
    Quiet([first], first, Started, map[])
  }

  lemma ListeningReached(first: string)
    requires first != ""
    ensures Reaches(Opened(first), Listening(first))
  {
    var from := Opened(first);
    ReachesItself(from);
    var s := from.(startup := Starting, observers := multiset{first});
    ReachesNext(from, from, StartRead, s);
    ReachesNext(from, s, StartLock(first), Listening(first));
  }

  /** The first client of a room joins. */
  lemma FirstClient(first: string, last: string, startup: Startup, a: ClientId)
    ensures Reaches(Quiet([first], last, startup, map[]), Quiet([first], first, startup, map[a := 0]))
  {
    var from := Quiet([first], last, startup, map[]);
    ReachesItself(from);
    var s := from.(clients := map[a := 0], joins := map[a := Join("", Registered)]);
    ReachesNext(from, from, Register(a, 0, ""), s);
    ReachesWholeJoin(from, s, a);
    assert WholeJoin(s, a) == Quiet([first], first, startup, map[a := 0]);
  }

  lemma Commits(from: Room, s: Room, fp: string)
    requires Reaches(from, s) && Enabled(s, Commit(fp))
    ensures Reaches(from, s.(history := s.history + [fp]))
  {
    ReachesNext(from, s, Commit(fp), s.(history := s.history + [fp]));
  }

  lemma ReadsThenLeaves(from: Room, s: Room, c: ClientId)
    requires Reaches(from, s) && s.history != [] && c in s.clients && c in s.joins && s.joins[c].phase.Registered?
    ensures Reaches(from, WithPhase(s, c, HasRead(s.Current())).(clients := s.clients - {c}))
  {
    var s1 := WithPhase(s, c, HasRead(s.Current()));
    ReachesNext(from, s, JoinRead(c), s1);
    ReachesNext(from, s1, Leave(c), s1.(clients := s.clients - {c}));
  }

  /** The rest of a handler that counted one client and whose own client is gone. */
  lemma EndsAway(s: Room, c: ClientId, read: string)
    requires s.history != [] && c in s.joins && c !in s.clients && s.joins[c].phase == Counted(read, true)
    ensures Enabled(s, JoinBaseline(c)) && Enabled(Next(s, JoinBaseline(c)), JoinRepair(c))
    ensures Next(Next(s, JoinBaseline(c)), JoinRepair(c)) ==
            s.(joins := s.joins - {c}, detector := s.detector.(last := read))
  {
    var s1 := Next(s, JoinBaseline(c));
    assert s1.joins - {c} == s.joins - {c};
  }

  /** A client `b` leaves while its handler runs: the handler counts the one client `a`, records a
      version that `a` was never told of, and `a` stays behind. */
  lemma LeaveMidJoinLoses(first: string, second: string, a: ClientId, b: ClientId)
    requires first != "" && second != "" && first != second && a != b
    ensures var s := Quiet([first, second], first, Started, map[a := 0])
                       .(joins := map[b := Join("", HasRead(second))]);
            Reaches(Listening(first), s) && Enabled(s, JoinCount(b)) && CountsAway(s, JoinCount(b)) &&
            LeftBehind(Next(Next(Next(s, JoinCount(b)), JoinBaseline(b)), JoinRepair(b)), a)
  {
    LeftMidJoin(first, second, a, b);
    CountHides(first, second, a, b);
  }

  lemma CountHides(first: string, second: string, a: ClientId, b: ClientId)
    requires first != "" && second != "" && first != second && a != b
    ensures var s := Quiet([first, second], first, Started, map[a := 0])
                       .(joins := map[b := Join("", HasRead(second))]);
            Enabled(s, JoinCount(b)) && CountsAway(s, JoinCount(b)) &&
            LeftBehind(Next(Next(Next(s, JoinCount(b)), JoinBaseline(b)), JoinRepair(b)), a)
  {
    var s := Quiet([first, second], first, Started, map[a := 0]);
    CountedAway(s, b, second);
    QuietIsLeftBehind(first, second, map[a := 0], a);
  }

  lemma CountedAway(s: Room, b: ClientId, read: string)
    requires s.history != [] && |s.clients| == 1 && b !in s.clients && s.joins == map[]
    ensures var t := s.(joins := map[b := Join("", HasRead(read))]);
            Enabled(t, JoinCount(b)) &&
            var counted := Next(t, JoinCount(b));
            Enabled(counted, JoinBaseline(b)) && Enabled(Next(counted, JoinBaseline(b)), JoinRepair(b)) &&
            Next(Next(counted, JoinBaseline(b)), JoinRepair(b)) == s.(detector := s.detector.(last := read))
  {
    var t := s.(joins := map[b := Join("", HasRead(read))]);
    EndsAway(Next(t, JoinCount(b)), b, read);
    assert Next(t, JoinCount(b)).joins - {b} == map[];
  }

  lemma LeftMidJoin(first: string, second: string, a: ClientId, b: ClientId)
    requires first != "" && second != "" && first != second && a != b
    ensures Reaches(Listening(first), Quiet([first, second], first, Started, map[a := 0])
                                        .(joins := map[b := Join("", HasRead(second))]))
  {
    var s := Quiet([first, second], first, Started, map[a := 0, b := 1]).(joins := map[b := Join("", Registered)]);
    SecondRegisters(first, second, a, b);
    ReadsThenLeaves(Listening(first), s, b);
    assert s.clients - {b} == map[a := 0];
    assert s.joins[b := Join("", HasRead(second))] == map[b := Join("", HasRead(second))];
  }

  lemma SecondRegisters(first: string, second: string, a: ClientId, b: ClientId)
    requires first != "" && second != "" && first != second && a != b
    ensures Reaches(Listening(first), Quiet([first, second], first, Started, map[a := 0, b := 1])
                                        .(joins := map[b := Join("", Registered)]))
  {
    var from := Listening(first);
    FirstClient(first, first, Started, a);
    Commits(from, Quiet([first], first, Started, map[a := 0]), second);
    assert [first] + [second] == [first, second];
    var s := Quiet([first, second], first, Started, map[a := 0]);
    ReachesNext(from, s, Register(b, 1, ""),
                s.(clients := map[a := 0, b := 1], joins := map[b := Join("", Registered)]));
  }

  /** Start takes its baseline after a commit that the clients of the room were not told of. */
  lemma StartHides(first: string, second: string, last: string, clients: map<ClientId, nat>, a: ClientId)
    requires first != "" && second != "" && first != second && (last == "" || last == first)
    requires a in clients && clients[a] == 0
    ensures var s := Quiet([first, second], last, Starting, clients).(observers := multiset{second});
            Enabled(s, StartLock(second)) && Loses(s, StartLock(second)) && LeftBehind(Next(s, StartLock(second)), a)
  {
    var s := Quiet([first, second], last, Starting, clients).(observers := multiset{second});
    assert !Covered(s, a);
    assert Next(s, StartLock(second)) == Quiet([first, second], second, Started, clients);
    QuietIsLeftBehind(first, second, clients, a);
  }

  lemma ReachesStarting(from: Room, first: string, second: string, last: string, clients: map<ClientId, nat>)
    requires second != "" && first != second && Reaches(from, Quiet([first], last, NotStarted, clients))
    ensures Reaches(from, Quiet([first, second], last, Starting, clients).(observers := multiset{second}))
  {
    Commits(from, Quiet([first], last, NotStarted, clients), second);
    assert [first] + [second] == [first, second];
    var s := Quiet([first, second], last, NotStarted, clients);
    ReachesNext(from, s, StartRead, s.(startup := Starting, observers := multiset{second}));
  }

  /** For the type alone, whose Start may come at any time: Start records, as `last`, a commit that
      a client already there was never told of.  The program starts before it listens. */
  lemma StartLosesACommit(first: string, second: string, a: ClientId)
    requires first != "" && second != "" && first != second
    ensures var s := Quiet([first, second], first, Starting, map[a := 0]).(observers := multiset{second});
            Reaches(Opened(first), s) && Enabled(s, StartLock(second)) && Loses(s, StartLock(second)) &&
            LeftBehind(Next(s, StartLock(second)), a)
  {
    FirstClient(first, "", NotStarted, a);
    ReachesStarting(Opened(first), first, second, first, map[a := 0]);
    StartHides(first, second, first, map[a := 0], a);
  }

  /** The same with `last` still empty: two clients that register before either counts leave no
      baseline, and Start's first one hides a commit from both. */
  lemma FirstBaselineLosesACommit(first: string, second: string, a: ClientId, b: ClientId)
    requires first != "" && second != "" && first != second && a != b
    ensures var s := Quiet([first, second], "", Starting, map[a := 0, b := 0]).(observers := multiset{second});
            Reaches(Opened(first), s) && Enabled(s, StartLock(second)) && Loses(s, StartLock(second)) &&
            LeftBehind(Next(s, StartLock(second)), a) && LeftBehind(Next(s, StartLock(second)), b)
  {
    BothJoined(first, a, b);
    ReachesStarting(Opened(first), first, second, "", map[a := 0, b := 0]);
    StartHides(first, second, "", map[a := 0, b := 0], a);
    StartHides(first, second, "", map[a := 0, b := 0], b);
  }

  lemma BothJoined(first: string, a: ClientId, b: ClientId)
    requires first != "" && a != b
    ensures Reaches(Opened(first), Quiet([first], "", NotStarted, map[a := 0, b := 0]))
  {
    var s := Opened(first);
    ReachesItself(s);
    var s1 := s.(clients := map[a := 0], joins := map[a := Join("", Registered)]);
    ReachesNext(s, s, Register(a, 0, ""), s1);
    var s2 := s.(clients := map[a := 0, b := 0], joins := map[a := Join("", Registered), b := Join("", Registered)]);
    ReachesNext(s, s1, Register(b, 0, ""), s2);
    JoinTogether(s, s2, a, b);
    assert s2.(joins := map[]) == Quiet([first], "", NotStarted, map[a := 0, b := 0]);
  }

  lemma TwoClients(clients: map<ClientId, nat>, a: ClientId, b: ClientId)
    requires a != b && clients.Keys == {a, b}
    ensures |clients| == 2
  {
    assert |clients.Keys| == 2;
  }

  /** Two clients that both count two set no baseline. */
  lemma JoinTogether(from: Room, s: Room, a: ClientId, b: ClientId)
    requires Reaches(from, s) && |s.history| == 1 && a != b && s.clients == map[a := 0, b := 0]
    requires s.joins == map[a := Join("", Registered), b := Join("", Registered)]
    ensures Reaches(from, s.(joins := map[]))
  {
    TwoClients(s.clients, a, b);
    var s1 := s.(joins := s.joins - {a});
    CrowdedJoin(from, s, a, s1);
    CrowdedJoin(from, s1, b, s1.(joins := s1.joins - {b}));
  }

  lemma CrowdedJoin(from: Room, s: Room, c: ClientId, t: Room)
    requires Reaches(from, s) && s.history != [] && c in s.clients && s.clients[c] == s.Version() && |s.clients| > 1
    requires c in s.joins && s.joins[c].phase.Registered? && t == s.(joins := s.joins - {c})
    ensures Reaches(from, t)
  {
    ReachesWholeJoin(from, s, c);
    assert s.clients[c := s.Version()] == s.clients;
  }

  /** A tick that read before a commit may lock after the sink has recorded that commit. */
  lemma LastCanMoveBack(first: string, second: string, a: ClientId, event: Event)
    requires first != "" && second != "" && first != second && event.generation > 0
    ensures var s := Quiet([first, second], second, Started, map[a := 0])
                       .(detector := Detector(second, event.generation), observers := multiset{first},
                         pending := multiset{Sent(event)});
            Reaches(Listening(first), s) && Enabled(s, TickLock(first)) &&
            Older(s, Next(s, TickLock(first)).detector.last, s.detector.last)
  {
    var s0 := Quiet([first, second], first, Started, map[a := 0]).(observers := multiset{first});
    ReadBeforeCommit(first, second, a);
    SinkDecides(Listening(first), s0, event);
    var s := s0.(detector := Detector(second, event.generation), pending := multiset{Sent(event)});
    assert s0.pending + multiset{Sent(event)} == s.pending;
    assert s.history[0] == first && s.history[1] == second;
  }

  lemma ReadBeforeCommit(first: string, second: string, a: ClientId)
    requires first != "" && second != "" && first != second
    ensures Reaches(Listening(first),
                    Quiet([first, second], first, Started, map[a := 0]).(observers := multiset{first}))
  {
    var from := Listening(first);
    var s := Quiet([first], first, Started, map[a := 0]);
    FirstClient(first, first, Started, a);
    TickReads(from, s);
    assert s.observers + multiset{first} == multiset{first} && [first] + [second] == [first, second];
    Commits(from, s.(observers := multiset{first}), second);
  }

  lemma TickReads(from: Room, s: Room)
    requires Reaches(from, s) && s.history != [] && s.startup == Started
    ensures Reaches(from, s.(observers := s.observers + multiset{s.Current()}))
  {
    ReachesNext(from, s, TickRead, s.(observers := s.observers + multiset{s.Current()}));
  }

  /** Why one consumer is needed, for the type alone: of two sink calls at once, the later one may
      broadcast first, and the repair of the other then goes out behind it. */
  lemma OverlappingSinksReorder(first: string, repair: Event, event: Event)
    requires first != "" && repair.name == STATE_EVENT && 0 < repair.generation < event.generation
    ensures var s := Opened(first).(detector := Detector(first, event.generation),
                                    pending := multiset{Sent(repair)}, sent := [event]);
            Reaches(Opened(first), s) && Enabled(s, Broadcast(Sent(repair))) &&
            !SentInOrder(Next(s, Broadcast(Sent(repair))))
  {
    var s0 := Opened(first);
    ReachesItself(s0);
    SinkDecides(s0, s0, repair);
    var s1 := s0.(detector := Detector(first, repair.generation), pending := multiset{Sent(repair)});
    assert s0.pending + multiset{Sent(repair)} == s1.pending;
    SinkDecides(s0, s1, event);
    var s := s0.(detector := Detector(first, event.generation), pending := multiset{Sent(repair)}, sent := [event]);
    BothDecided(first, event, repair, s);
    assert event in s.sent;
    RepairOrderIff(s, Broadcast(Sent(repair)));
  }

  lemma BothDecided(first: string, event: Event, repair: Event, t: Room)
    requires t == Opened(first).(detector := Detector(first, event.generation), pending := multiset{Sent(repair)},
                                 sent := [event])
    requires Reaches(Opened(first), t.(pending := multiset{Sent(repair)} + multiset{Sent(event)}, sent := []))
    ensures Reaches(Opened(first), t)
  {
    var s := t.(pending := multiset{Sent(repair)} + multiset{Sent(event)}, sent := []);
    assert s.pending - multiset{Sent(event)} == t.pending;
    ReachesNext(Opened(first), s, Broadcast(Sent(event)), t);
  }

  /** One sink call up to its decision. */
  lemma SinkDecides(from: Room, s: Room, event: Event)
    requires Reaches(from, s) && s.history != [] && s.sinks == multiset{}
    requires event.generation > s.detector.lastGeneration
    ensures Reaches(from, s.(detector := Detector(s.Current(), event.generation),
                         pending := s.pending + multiset{Sent(event)}))
  {
    var s1 := s.(sinks := multiset{(event, s.Current())});
    ReachesNext(from, s, SinkRead(event), s1);
    ReachesNext(from, s1, SinkLock(event, s.Current()),
                  s.(detector := Detector(s.Current(), event.generation),
                     pending := s.pending + multiset{Sent(event)}));
  }
}
