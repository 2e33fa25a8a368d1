/** The live-scoring snapshot memo and the clock correction applied on every read
    (live_scoring.go). The livescore poller is a timeline of snapshots that moves on whenever it
    likes; the memo sees its version at one instant and copies it at another. */
module SnapshotMemo {

  datatype GameState = GameState(kickoff: int, inProgress: bool, final: bool, scores: (int, int))

  datatype Snapshot = Snapshot(version: int, games: map<string, GameState>)

  // ---------------------------------------------------------------- freshenSnapshot

  const WINDOW_AFTER := 5 * 3_600_000_000_000

  /** livescore.WindowClosed, in nanoseconds; kickoff 0 is the unset instant. */
  predicate Closed(kickoff: int, now: int)
  {
    kickoff != 0 && now > kickoff + WINDOW_AFTER
  }

  predicate Stale(g: GameState, now: int)
  {
    g.inProgress && !g.final && Closed(g.kickoff, now)
  }

  function Cleared(g: GameState, now: int): GameState
  {
    if Stale(g, now) then g.(inProgress := false) else g
  }

  function Freshened(s: Snapshot, now: int): Snapshot
  {
    s.(games := map id | id in s.games :: Cleared(s.games[id], now))
  }

  /** The pre-scan returns the snapshot itself when nothing needs clearing; the answer is the
      same either way. */
  method Freshen(s: Snapshot, now: int) returns (r: Snapshot)
    ensures r == Freshened(s, now)
  {
    var needsClear := false;
    var left := s.games.Keys;
    while left != {} && !needsClear
      invariant left <= s.games.Keys
      invariant needsClear || forall id :: id in s.games && id !in left ==> !Stale(s.games[id], now)
      decreases |left|, !needsClear
    {
      var id :| id in left;
      left := left - {id};
      needsClear := Stale(s.games[id], now);
    }
    if !needsClear {
      NothingToClear(s, now);
      return s;
    }
    var games: map<string, GameState> := map[];
    left := s.games.Keys;
    while left != {}
      invariant left <= s.games.Keys && games.Keys == s.games.Keys - left
      invariant forall id :: id in games ==> games[id] == Cleared(s.games[id], now)
    {
      var id :| id in left;
      left := left - {id};
      var game := s.games[id];
      if game.inProgress && !game.final && Closed(game.kickoff, now) {
        game := game.(inProgress := false);
      }
      games := games[id := game];
    }
    r := s.(games := games);
    assert r.games == Freshened(s, now).games;
  }

  lemma NothingToClear(s: Snapshot, now: int)
    requires forall id :: id in s.games ==> !Stale(s.games[id], now)
    ensures Freshened(s, now) == s
  {
    assert Freshened(s, now).games == s.games;
  }

  /** A reader sees every game, in progress exactly if it is and, unless it is final or its kickoff
      is not known, its five hours are not over. */
  lemma FreshenedShows(s: Snapshot, now: int, id: string)
    requires id in s.games
    ensures var g, shown := s.games[id], Freshened(s, now);
            && shown.version == s.version && shown.games.Keys == s.games.Keys
            && shown.games[id] == g.(inProgress := shown.games[id].inProgress)
            && (shown.games[id].inProgress <==>
                  g.inProgress && (g.final || g.kickoff == 0 || now <= g.kickoff + 18_000_000_000_000))
  {
    assert Freshened(s, now).games.Keys == s.games.Keys;
  }

  /** Freshening a copy that was already freshened loses nothing: only the last clock matters. */
  lemma FreshenAgain(s: Snapshot, now: int, later: int)
    requires now <= later
    ensures Freshened(Freshened(s, now), later) == Freshened(s, later)
  {
    assert Freshened(Freshened(s, now), later).games == Freshened(s, later).games;
  }

  // ---------------------------------------------------------------- versionedSnapshot

  class VersionedSnapshot {
    var haveVer: int
    var snap: Snapshot

    constructor ()
      ensures Memo() == EMPTY
    {
      haveVer, snap := -1, Snapshot(0, map[]);
    }

    function Memo(): MemoState
      reads this
    {
      MemoState(haveVer, snap)
    }

    /** One call: `v` is the version read first, `copy` what the poller held when copied. */
    method Get(v: int, copy: Snapshot) returns (r: Snapshot)
      modifies this
      ensures (r, Memo()) == Read(old(Memo()), v, copy)
    {
      if v != haveVer {
        snap, haveVer := copy, v;
      }
      return snap;
    }
  }

  datatype MemoState = MemoState(haveVer: int, snap: Snapshot)

  const EMPTY := MemoState(-1, Snapshot(0, map[]))

  function Read(m: MemoState, v: int, copy: Snapshot): (Snapshot, MemoState)
  {
    var after := if v != m.haveVer then MemoState(v, copy) else m;
    (after.snap, after)
  }

  // ---------------------------------------------------------------- runs

  /** What the poller holds at one instant. */
  datatype Instant = Instant(clock: int, held: Snapshot)

  /** Clocks and versions never go back, and while the version stands so does what is held. */
  predicate Timeline(timeline: seq<Instant>)
  {
    (forall k :: 0 <= k < |timeline| ==> timeline[k].held.version >= 0) &&
    forall j, k :: 0 <= j <= k < |timeline| ==>
      timeline[j].clock <= timeline[k].clock && timeline[j].held.version <= timeline[k].held.version &&
      (timeline[j].held.version == timeline[k].held.version ==> timeline[j].held == timeline[k].held)
  }

  /** livescore's Poller.Snapshot applies the window rule by its own clock. */
  function PollerSnapshot(i: Instant): Snapshot
  {
    Freshened(i.held, i.clock)
  }

  /** When a call read the version and when, if it did, it copied the snapshot. */
  datatype Call = Call(read: nat, copied: nat)

  /** The memo's lock keeps calls apart; the poller may move on at any instant, also within one. */
  predicate Serialized(calls: seq<Call>, timeline: seq<Instant>)
  {
    (forall i :: 0 <= i < |calls| ==> calls[i].read <= calls[i].copied < |timeline|) &&
    forall i, j :: 0 <= i < j < |calls| ==> calls[i].copied <= calls[j].read
  }

  function After(calls: seq<Call>, timeline: seq<Instant>): MemoState
    requires Serialized(calls, timeline)
  {
    if calls == [] then EMPTY
    else
      var n := |calls| - 1;
      assert Serialized(calls[..n], timeline);
      Read(After(calls[..n], timeline), timeline[calls[n].read].held.version,
           PollerSnapshot(timeline[calls[n].copied])).1
  }

  /** What call `i` returned. */
  function Returned(calls: seq<Call>, timeline: seq<Instant>, i: nat): Snapshot
    requires Serialized(calls, timeline) && i < |calls|
  {
    assert Serialized(calls[..i + 1], timeline);
    After(calls[..i + 1], timeline).snap
  }

  /** The memo holds the copy some call made, under the version that call had read. */
  predicate CopiedBy(m: MemoState, call: Call, timeline: seq<Instant>)
    requires call.read <= call.copied < |timeline|
  {
    m.haveVer == timeline[call.read].held.version && m.snap == PollerSnapshot(timeline[call.copied])
  }

  lemma {:induction false} MemoIsACopy(calls: seq<Call>, timeline: seq<Instant>) returns (i: nat)
    requires Serialized(calls, timeline) && Timeline(timeline) && calls != []
    ensures i < |calls| && CopiedBy(After(calls, timeline), calls[i], timeline)
    ensures var last := calls[|calls| - 1];
            timeline[last.read].held.version <= After(calls, timeline).snap.version &&
            After(calls, timeline).snap.version <= timeline[last.copied].held.version
  {
    var n := |calls| - 1;
    var last, front := calls[n], calls[..n];
    assert Serialized(front, timeline);
    assert timeline[last.read].held.version <= timeline[last.copied].held.version;
    if timeline[last.read].held.version != After(front, timeline).haveVer {
      i := n;
    } else {
      i := MemoIsACopy(front, timeline);
      assert calls[i] == front[i] && calls[i].copied <= last.read;
      assert timeline[calls[i].read].held.version <= timeline[calls[i].copied].held.version
          <= timeline[last.read].held.version;
    }
  }

  /** Every snapshot returned is one the poller really gave out, at least as new as its version
      when the call read it and never newer than its version when the call ended. */
  lemma NeverStaleNeverAhead(calls: seq<Call>, timeline: seq<Instant>, i: nat) returns (k: nat)
    requires Serialized(calls, timeline) && Timeline(timeline) && i < |calls|
    ensures timeline[calls[i].read].held.version <= Returned(calls, timeline, i).version
    ensures Returned(calls, timeline, i).version <= timeline[calls[i].copied].held.version
    ensures k <= calls[i].copied && Returned(calls, timeline, i) == PollerSnapshot(timeline[k])
  {
    var part := calls[..i + 1];
    assert Serialized(part, timeline);
    var j := MemoIsACopy(part, timeline);
    k := part[j].copied;
    assert part[j] == calls[j] && (j < i ==> calls[j].copied <= calls[i].read);
  }

  /** Successive returns never go back. */
  lemma ReturnsNeverGoBack(calls: seq<Call>, timeline: seq<Instant>, i: nat, j: nat)
    requires Serialized(calls, timeline) && Timeline(timeline) && i < j < |calls|
    ensures Returned(calls, timeline, i).version <= Returned(calls, timeline, j).version
  {
    var before := NeverStaleNeverAhead(calls, timeline, i);
    var after := NeverStaleNeverAhead(calls, timeline, j);
    assert timeline[calls[i].copied].held.version <= timeline[calls[j].read].held.version;
  }

  /** However old the memoized copy is, freshening it by the reader's clock gives exactly what a
      copy made at that clock would show of the same version. */
  lemma FreshenedReadIsCurrent(calls: seq<Call>, timeline: seq<Instant>, i: nat, now: int)
    requires Serialized(calls, timeline) && Timeline(timeline) && i < |calls| && timeline[calls[i].copied].clock <= now
    ensures forall m :: 0 <= m < |timeline| && timeline[m].held.version == Returned(calls, timeline, i).version ==>
              Freshened(Returned(calls, timeline, i), now) == Freshened(timeline[m].held, now)
  {
    var k := NeverStaleNeverAhead(calls, timeline, i);
    assert timeline[k].clock <= timeline[calls[i].copied].clock;
    FreshenAgain(timeline[k].held, timeline[k].clock, now);
    forall m | 0 <= m < |timeline| && timeline[m].held.version == Returned(calls, timeline, i).version
      ensures Freshened(Returned(calls, timeline, i), now) == Freshened(timeline[m].held, now)
    {
      assert timeline[m].held == timeline[k].held;
    }
  }

  predicate ShowsPlaying(s: Snapshot, id: string)
  {
    id in s.games && s.games[id].inProgress
  }

  /** Without it the copy can go on showing a game in progress after its window has closed. */
  lemma MemoAloneGoesStale(game: GameState, now: int)
    requires game.inProgress && !game.final && game.kickoff > 0 && Closed(game.kickoff, now)
    ensures var held := Snapshot(0, map["g" := game]);
            var timeline := [Instant(game.kickoff, held), Instant(now, held)];
            var calls := [Call(0, 0), Call(1, 1)];
            Timeline(timeline) && Serialized(calls, timeline) &&
            ShowsPlaying(Returned(calls, timeline, 1), "g") && !ShowsPlaying(PollerSnapshot(timeline[1]), "g")
  {
    var held := Snapshot(0, map["g" := game]);
    var timeline := [Instant(game.kickoff, held), Instant(now, held)];
    var calls := [Call(0, 0), Call(1, 1)];
    var first := [Call(0, 0)];
    assert calls[..2] == calls && calls[..1] == first && first[..0] == [];
    assert Serialized(first, timeline);
    var none: seq<Call> := [];
    assert After(none, timeline) == EMPTY;
    assert After(first, timeline) == Read(EMPTY, 0, PollerSnapshot(timeline[0])).1;
    assert After(calls, timeline) == After(first, timeline);
    assert PollerSnapshot(timeline[1]).games["g"] == Cleared(game, now);
  }
}
