/** The setup token's attempt limiter (setup_token.go): a fixed window per key, with a lockout
    once the window's limit is passed.  Times and durations are whole clock units. */
module RateLimiter {
  import opened Text

  datatype Config = Config(limit: int, window: int, lockout: int)

  /** `lockedUntil` is None where the source holds the zero time. */
  datatype Entry = Entry(windowStart: int, count: int, lockedUntil: Option<int>)

  type Entries = map<string, Entry>

  function EntryFor(entries: Entries, key: string, now: int): Entry
  {
    if key in entries then entries[key] else Entry(now, 0, None)
  }

  predicate Locked(e: Entry, now: int)
  {
    e.lockedUntil.Some? && now < e.lockedUntil.value
  }

  /** A just-expired lockout, or a window that has run out, starts a fresh window. */
  predicate StartsWindow(c: Config, e: Entry, now: int)
  {
    e.lockedUntil.Some? || now - e.windowStart > c.window
  }

  /** One attempt on one entry: the new entry, and whether the attempt is allowed. */
  function Attempt(c: Config, e: Entry, now: int): (Entry, bool)
  {
    if Locked(e, now) then (e, false)
    else
      var f := if StartsWindow(c, e, now) then Entry(now, 0, None) else e;
      if f.count + 1 > c.limit then (Entry(f.windowStart, f.count + 1, Some(now + c.lockout)), false)
      else (Entry(f.windowStart, f.count + 1, None), true)
  }

  function Step(c: Config, entries: Entries, key: string, now: int): (Entries, bool)
  {
    var (e, allowed) := Attempt(c, EntryFor(entries, key, now), now);
    (entries[key := e], allowed)
  }

  class SetupRateLimiter {
    const config: Config
    var state: Entries

    constructor (config: Config)
      ensures this.config == config && state == map[]
    {
      this.config := config;
      state := map[];
    }

    method Allow(key: string, now: int) returns (allowed: bool)
      modifies this
      ensures (state, allowed) == Step(config, old(state), key, now)
    {
      var entry: Entry;
      if key in state {
        entry := state[key];
      } else {
        entry := Entry(now, 0, None);
        state := state[key := entry];
      }
      if entry.lockedUntil.Some? && now < entry.lockedUntil.value {
        assert state == old(state)[key := entry];
        return false;
      }
      if entry.lockedUntil.Some? || now - entry.windowStart > config.window {
        entry := Entry(now, 0, None);
      }
      entry := entry.(count := entry.count + 1);
      if entry.count > config.limit {
        entry := entry.(lockedUntil := Some(now + config.lockout));
        state := state[key := entry];
        assert state == old(state)[key := entry];
        return false;
      }
      state := state[key := entry];
      assert state == old(state)[key := entry];
      allowed := true;
    }
  }

  // ---------------------------------------------------------------- runs

  datatype Try = Try(key: string, now: int)

  /** The clock never runs backwards from `since` on. */
  predicate Clocked(tries: seq<Try>, since: int)
  {
    tries == [] || (since <= tries[0].now && Clocked(tries[1..], tries[0].now))
  }

  /** How many attempts of `key` in the half-open interval [from, end) are allowed. */
  function AllowedIn(c: Config, entries: Entries, tries: seq<Try>, key: string, from: int, end: int): nat
    decreases |tries|
  {
    if tries == [] then 0
    else
      var t := tries[0];
      var (after, allowed) := Step(c, entries, t.key, t.now);
      (if t.key == key && allowed && from <= t.now < end then 1 else 0)
      + AllowedIn(c, after, tries[1..], key, from, end)
  }

  /** The shortest distance between the starts of two windows. */
  function Spacing(c: Config): int
  {
    if c.lockout < c.window then c.lockout else c.window
  }

  /** The most windows that can start in [start, end). */
  function Windows(start: int, end: int, spacing: int): nat
    requires spacing > 0
    decreases end - start
  {
    if end <= start then 0 else 1 + Windows(start + spacing, end, spacing)
  }

  lemma {:induction false} WindowsFit(start: int, end: int, spacing: int, n: nat)
    requires spacing > 0 && end - start <= n * spacing
    ensures Windows(start, end, spacing) <= n
    decreases n
  {
    if start < end {
      assert n > 0;
      assert n * spacing == (n - 1) * spacing + spacing;
      WindowsFit(start + spacing, end, spacing, n - 1);
    }
  }

  lemma {:induction false} WindowsLater(start: int, later: int, end: int, spacing: int)
    requires spacing > 0 && start <= later
    ensures Windows(later, end, spacing) <= Windows(start, end, spacing)
    decreases end - later
  {
    if later < end {
      WindowsLater(start + spacing, later + spacing, end, spacing);
    }
  }

  /** What holds of every entry: its lock, if any, ends a lockout after its window began. */
  predicate EntryOk(c: Config, e: Entry, now: int)
  {
    e.windowStart <= now && 0 <= e.count &&
    (e.lockedUntil.Some? ==> e.windowStart + c.lockout <= e.lockedUntil.value)
  }

  predicate EntriesOk(c: Config, entries: Entries, now: int)
  {
    forall k :: k in entries ==> EntryOk(c, entries[k], now)
  }

  function Left(c: Config, e: Entry): nat
  {
    if e.count < c.limit then c.limit - e.count else 0
  }

  /** The most attempts of `key` that can still be allowed before `end`, from time `now` on. */
  function Bound(c: Config, entries: Entries, key: string, now: int, end: int): nat
    requires Spacing(c) > 0 && c.limit >= 0
  {
    if now >= end then 0
    else if key !in entries then c.limit * Windows(now, end, Spacing(c))
    else
      var next := entries[key].windowStart + Spacing(c);
      Left(c, entries[key]) + c.limit * Windows(if next < now then now else next, end, Spacing(c))
  }

  lemma Scaled(limit: nat, a: nat, b: nat)
    requires a <= b
    ensures limit * a <= limit * b
  {
  }

  lemma BoundLater(c: Config, entries: Entries, key: string, now: int, later: int, end: int)
    requires Spacing(c) > 0 && c.limit >= 0 && now <= later
    ensures Bound(c, entries, key, later, end) <= Bound(c, entries, key, now, end)
  {
    var m := Spacing(c);
    if later < end {
      if key !in entries {
        WindowsLater(now, later, end, m);
        Scaled(c.limit, Windows(later, end, m), Windows(now, end, m));
      } else {
        var next := entries[key].windowStart + m;
        var a, b := if next < now then now else next, if next < later then later else next;
        WindowsLater(a, b, end, m);
        Scaled(c.limit, Windows(b, end, m), Windows(a, end, m));
      }
    }
  }

  /** A window that starts at `now` spends one of the windows counted from `next` on. */
  lemma FreshWindowBound(c: Config, next: int, now: int, end: int)
    requires Spacing(c) > 0 && c.limit >= 0 && next <= now < end
    ensures c.limit + c.limit * Windows(now + Spacing(c), end, Spacing(c)) <= c.limit * Windows(next, end, Spacing(c))
  {
    var m := Spacing(c);
    WindowsLater(next, now, end, m);
    Scaled(c.limit, Windows(now, end, m), Windows(next, end, m));
    assert Windows(now, end, m) == 1 + Windows(now + m, end, m);
  }

  lemma BoundSpent(c: Config, entries: Entries, key: string, since: int, now: int, end: int)
    requires Spacing(c) > 0 && c.limit >= 0 && EntriesOk(c, entries, since) && since <= now < end
    ensures var (after, allowed) := Step(c, entries, key, now);
            (if allowed then 1 else 0) + Bound(c, after, key, now, end) <= Bound(c, entries, key, since, end)
  {
    var m := Spacing(c);
    var e := EntryFor(entries, key, now);
    BoundLater(c, entries, key, since, now, end);
    if !Locked(e, now) {
      if key !in entries {
        FreshWindowBound(c, now, now, end);
      } else if StartsWindow(c, e, now) {
        var next := e.windowStart + m;
        FreshWindowBound(c, if next < since then since else next, now, end);
      }
    }
  }

  lemma {:induction false} AllowedAtMostBound(c: Config, entries: Entries, tries: seq<Try>, key: string, since: int,
                                              from: int, end: int)
    requires Spacing(c) > 0 && c.limit >= 0 && EntriesOk(c, entries, since) && Clocked(tries, since) && from <= since
    ensures AllowedIn(c, entries, tries, key, from, end) <= Bound(c, entries, key, since, end)
    decreases |tries|
  {
    if tries != [] {
      var t := tries[0];
      var after := Step(c, entries, t.key, t.now).0;
      AllowedAtMostBound(c, after, tries[1..], key, t.now, from, end);
      if t.key == key && t.now < end {
        BoundSpent(c, entries, key, since, t.now, end);
      } else {
        BoundLater(c, entries, key, since, t.now, end);
        assert t.key != key && key in entries ==> after[key] == entries[key];
      }
    }
  }

  // ---------------------------------------------------------------- main results

  /** Over any interval that `n` spacings of min(lockout, window) cover, one key is allowed
      at most limit * (n + 1) attempts; the least such `n` is the length divided by the
      spacing, rounded up. */
  lemma {:induction false} AllowedPerInterval(c: Config, entries: Entries, tries: seq<Try>, key: string, since: int,
                                              from: int, end: int, n: nat)
    requires c.limit >= 0 && c.window > 0 && c.lockout > 0
    requires EntriesOk(c, entries, since) && Clocked(tries, since) && end - from <= n * Spacing(c)
    ensures AllowedIn(c, entries, tries, key, from, end) <= c.limit * (n + 1)
    decreases |tries|
  {
    if tries == [] {
    } else if tries[0].now < from {
      var t := tries[0];
      AllowedPerInterval(c, Step(c, entries, t.key, t.now).0, tries[1..], key, t.now, from, end, n);
    } else {
      var now := if since < from then from else since;
      assert EntriesOk(c, entries, now);
      AllowedAtMostBound(c, entries, tries, key, now, from, end);
      BoundAtRest(c, entries, key, now, from, end, n);
    }
  }

  lemma BoundAtRest(c: Config, entries: Entries, key: string, now: int, from: int, end: int, n: nat)
    requires Spacing(c) > 0 && c.limit >= 0 && EntriesOk(c, entries, now)
    requires from <= now && end - from <= n * Spacing(c)
    ensures Bound(c, entries, key, now, end) <= c.limit * (n + 1)
  {
    var m := Spacing(c);
    if now < end {
      var start := if key in entries && entries[key].windowStart + m > now then entries[key].windowStart + m else now;
      WindowsLater(from, start, end, m);
      WindowsFit(from, end, m, n);
      Scaled(c.limit, Windows(start, end, m), n);
    }
  }

  lemma RoundedUpCovers(length: int, spacing: int)
    requires length >= 0 && spacing > 0
    ensures length <= (length + spacing - 1) / spacing * spacing
  {
    var n := (length + spacing - 1) / spacing;
    assert length + spacing - 1 == n * spacing + (length + spacing - 1) % spacing;
  }

  /** The same with the number of spacings worked out: the length over min(lockout, window),
      rounded up. */
  lemma AllowedPerLength(c: Config, entries: Entries, tries: seq<Try>, key: string, since: int, from: int, length: nat)
    requires c.limit >= 0 && c.window > 0 && c.lockout > 0
    requires EntriesOk(c, entries, since) && Clocked(tries, since)
    ensures AllowedIn(c, entries, tries, key, from, from + length) <=
            c.limit * ((length + Spacing(c) - 1) / Spacing(c) + 1)
  {
    RoundedUpCovers(length, Spacing(c));
    AllowedPerInterval(c, entries, tries, key, since, from, from + length, (length + Spacing(c) - 1) / Spacing(c));
  }

  /** An attempt of another key changes neither this key's entry nor its next answer. */
  lemma KeysIndependent(c: Config, entries: Entries, other: string, key: string, now: int, later: int)
    requires key != other
    ensures var after := Step(c, entries, other, now).0;
            (key in after <==> key in entries) && (key in entries ==> after[key] == entries[key]) &&
            Step(c, after, key, later).1 == Step(c, entries, key, later).1
  {
  }

  /** The answer while a key is locked: refused, with the lockout not extended; the first
      attempt at or after its end is allowed whenever the limit allows any. */
  lemma LockoutEndsOnTime(c: Config, entries: Entries, key: string, now: int)
    requires key in entries && entries[key].lockedUntil.Some?
    ensures var until := entries[key].lockedUntil.value;
            (now < until ==> Step(c, entries, key, now) == (entries, false)) &&
            (now >= until ==> Step(c, entries, key, now).1 == (c.limit >= 1))
  {
    assert entries[key := entries[key]] == entries;
  }

  function Burst(key: string, now: int, n: nat): seq<Try>
  {
    seq(n, _ => Try(key, now))
  }

  /** The allowance is reached in every window: `limit` attempts at one instant on a fresh key
      are allowed and the next one locks the key. */
  lemma {:induction false} WindowFills(c: Config, entries: Entries, key: string, now: int, used: nat)
    requires used <= c.limit && c.window >= 0
    requires if used == 0 then key !in entries else key in entries && entries[key] == Entry(now, used, None)
    ensures AllowedIn(c, entries, Burst(key, now, c.limit - used), key, now, now + 1) == c.limit - used
    decreases c.limit - used
  {
    if used < c.limit {
      var tries := Burst(key, now, c.limit - used);
      assert tries[1..] == Burst(key, now, c.limit - used - 1);
      WindowFills(c, Step(c, entries, key, now).0, key, now, used + 1);
    }
  }

  // ---------------------------------------------------------------- exact answers

  /** The limiter after a run, and its answer to attempt `k` of one. */
  function After(c: Config, entries: Entries, tries: seq<Try>): Entries
  {
    if tries == [] then entries
    else
      var n := |tries| - 1;
      Step(c, After(c, entries, tries[..n]), tries[n].key, tries[n].now).0
  }

  predicate Answer(c: Config, entries: Entries, tries: seq<Try>, k: nat)
    requires k < |tries|
  {
    Step(c, After(c, entries, tries[..k]), tries[k].key, tries[k].now).1
  }

  lemma AfterNext(c: Config, entries: Entries, tries: seq<Try>, n: nat)
    requires n < |tries|
    ensures After(c, entries, tries[..n + 1]) == Step(c, After(c, entries, tries[..n]), tries[n].key, tries[n].now).0
  {
    assert tries[..n + 1][..n] == tries[..n];
  }

  /** How many of the first `n` attempts are this key's. */
  function Attempts(tries: seq<Try>, key: string, n: nat): nat
    requires n <= |tries|
  {
    if n == 0 then 0 else Attempts(tries, key, n - 1) + if tries[n - 1].key == key then 1 else 0
  }

  /** The key's attempts all come in the window that the first of them begins at `start`. */
  predicate InOneWindow(c: Config, tries: seq<Try>, key: string, start: int)
  {
    forall i :: 0 <= i < |tries| && tries[i].key == key ==>
      tries[i].now <= start + c.window && (Attempts(tries, key, i) == 0 ==> tries[i].now == start)
  }

  lemma {:induction false} WindowCounts(c: Config, entries: Entries, tries: seq<Try>, key: string, start: int, n: nat)
    requires key !in entries && InOneWindow(c, tries, key, start) && n <= |tries|
    requires c.window >= 0 && Attempts(tries, key, n) <= c.limit
    ensures var after := After(c, entries, tries[..n]);
            if Attempts(tries, key, n) == 0 then key !in after
            else key in after && after[key] == Entry(start, Attempts(tries, key, n), None)
  {
    if n > 0 {
      WindowCounts(c, entries, tries, key, start, n - 1);
      AfterNext(c, entries, tries, n - 1);
    }
  }

  /** One window of a fresh key, any other keys in between: the first `limit` attempts are allowed
      and the next one is not. */
  lemma WindowIsExact(c: Config, entries: Entries, tries: seq<Try>, key: string, start: int, k: nat)
    requires key !in entries && InOneWindow(c, tries, key, start) && c.window >= 0
    requires k < |tries| && tries[k].key == key && Attempts(tries, key, k) <= c.limit
    ensures Answer(c, entries, tries, k) <==> Attempts(tries, key, k) < c.limit
  {
    WindowCounts(c, entries, tries, key, start, k);
  }

  /** The key is under no lock, and its window has run out by its next attempt in `tries`. */
  predicate RunsOut(c: Config, entries: Entries, tries: seq<Try>, key: string)
  {
    key in entries ==>
      entries[key].lockedUntil == None &&
      forall i :: 0 <= i < |tries| && tries[i].key == key ==> tries[i].now - entries[key].windowStart > c.window
  }

  predicate Spaced(c: Config, tries: seq<Try>, key: string)
  {
    forall i, j :: 0 <= i < j < |tries| && tries[i].key == tries[j].key == key ==>
      tries[j].now - tries[i].now > c.window
  }

  lemma {:induction false} StillRunsOut(c: Config, entries: Entries, tries: seq<Try>, key: string, n: nat)
    requires c.limit >= 1 && Spaced(c, tries, key) && RunsOut(c, entries, tries, key) && n <= |tries|
    ensures RunsOut(c, After(c, entries, tries[..n]), tries[n..], key)
  {
    if n > 0 {
      StillRunsOut(c, entries, tries, key, n - 1);
      AfterNext(c, entries, tries, n - 1);
      assert tries[n - 1] == tries[n - 1..][0] && tries[n..] == tries[n - 1..][1..];
    } else {
      assert tries[..0] == [] && tries[0..] == tries;
    }
  }

  /** Attempts more than a window apart are all allowed, and each begins a window of its own with
      `limit - 1` left. */
  lemma SpacedAttemptsPass(c: Config, entries: Entries, tries: seq<Try>, key: string, k: nat)
    requires c.limit >= 1 && Spaced(c, tries, key) && RunsOut(c, entries, tries, key)
    requires k < |tries| && tries[k].key == key
    ensures Answer(c, entries, tries, k)
    ensures After(c, entries, tries[..k + 1])[key] == Entry(tries[k].now, 1, None)
  {
    StillRunsOut(c, entries, tries, key, k);
    AfterNext(c, entries, tries, k);
    assert tries[k..][0] == tries[k];
  }

  lemma {:induction false} StaysLocked(c: Config, entries: Entries, tries: seq<Try>, key: string, n: nat)
    requires key in entries && entries[key].lockedUntil.Some? && n <= |tries|
    requires forall i :: 0 <= i < n && tries[i].key == key ==> tries[i].now < entries[key].lockedUntil.value
    ensures var after := After(c, entries, tries[..n]); key in after && after[key] == entries[key]
  {
    if n > 0 {
      StaysLocked(c, entries, tries, key, n - 1);
      AfterNext(c, entries, tries, n - 1);
    }
  }

  /** A lockout lasts exactly its length: after the attempt that trips the limit at `now`, the
      key's attempts are refused before `now + lockout`, and the first one at or after it is
      allowed and begins a window. */
  lemma LockoutIsExact(c: Config, entries: Entries, key: string, now: int, tries: seq<Try>, k: nat)
    requires c.limit >= 1 && !Locked(EntryFor(entries, key, now), now) && !Step(c, entries, key, now).1
    requires k < |tries| && tries[k].key == key
    requires forall i :: 0 <= i < k && tries[i].key == key ==> tries[i].now < now + c.lockout
    ensures var tripped := Step(c, entries, key, now).0;
            (Answer(c, tripped, tries, k) <==> tries[k].now >= now + c.lockout) &&
            (tries[k].now >= now + c.lockout ==>
               After(c, tripped, tries[..k + 1])[key] == Entry(tries[k].now, 1, None))
  {
    var tripped := Step(c, entries, key, now).0;
    StaysLocked(c, tripped, tries, key, k);
    AfterNext(c, tripped, tries, k);
  }
}
