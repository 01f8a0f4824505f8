/** The sliding window of automatic restarts (gateway/tickler.go, shouldRestartProcess). */
module RestartBudget {
  import opened Basics

  const WINDOW: int := 15 * MINUTE
  const LIMIT: nat := 3

  /** The attempts of the last fifteen minutes, in order. */
  function Recent(attempts: seq<int>, now: int): seq<int> {
    if attempts == [] then []
    else if now - attempts[0] < WINDOW then [attempts[0]] + Recent(attempts[1..], now)
    else Recent(attempts[1..], now)
  }

  lemma {:induction false} RecentAppend(attempts: seq<int>, t: int, now: int)
    ensures Recent(attempts + [t], now) == Recent(attempts, now) + if now - t < WINDOW then [t] else []
  {
    if attempts != [] {
      assert (attempts + [t])[1..] == attempts[1..] + [t];
      RecentAppend(attempts[1..], t, now);
    }
  }

  /** The filter writes over the slice it reads, as `recent := g.restartAttempts[:0]` does. */
  method KeepRecent(attempts: array<int>, count: nat, now: int) returns (kept: nat)
    requires count <= attempts.Length
    modifies attempts
    ensures kept <= count
    ensures attempts[..kept] == Recent(old(attempts[..count]), now)
  {
    kept := 0;
    for i := 0 to count
      invariant kept <= i
      invariant attempts[..kept] == Recent(old(attempts[..i]), now)
      invariant attempts[i..count] == old(attempts[i..count])
    {
      ghost var t := attempts[i];
      assert t == old(attempts[i..count])[0] == old(attempts[i]);
      RecentAppend(old(attempts[..i]), t, now);
      assert old(attempts[..i + 1]) == old(attempts[..i]) + [t];
      assert attempts[i + 1..count] == attempts[i..count][1..] == old(attempts[i + 1..count]);
      if now - attempts[i] < WINDOW {
        attempts[kept] := attempts[i];
        kept := kept + 1;
        assert attempts[..kept] == attempts[..kept - 1] + [t];
      }
    }
  }

  ghost predicate Sorted(s: seq<int>) {
    forall i, j | 0 <= i < j < |s| :: s[i] <= s[j]
  }

  /** On ordered attempts the filter drops exactly a prefix, and all of it is at least a window old. */
  lemma {:induction false} RecentIsSuffix(attempts: seq<int>, now: int) returns (dropped: nat)
    requires Sorted(attempts)
    ensures dropped <= |attempts| && Recent(attempts, now) == attempts[dropped..]
    ensures forall i | 0 <= i < dropped :: now - attempts[i] >= WINDOW
    ensures forall i | dropped <= i < |attempts| :: now - attempts[i] < WINDOW
  {
    if attempts == [] || now - attempts[0] < WINDOW {
      dropped := 0;
      if attempts != [] {
        var d := RecentIsSuffix(attempts[1..], now);
        assert forall i | 0 <= i < |attempts[1..]| :: attempts[1..][i] >= attempts[0];
        assert d == 0;
      }
    } else {
      var d := RecentIsSuffix(attempts[1..], now);
      dropped := d + 1;
    }
  }

  /** `window` is what the manager remembers of all the `granted` restarts at time `clock`. */
  ghost predicate Remembers(window: seq<int>, granted: seq<int>, clock: int) {
    && Sorted(granted)
    && (forall i | 0 <= i < |granted| :: granted[i] <= clock)
    && |window| <= |granted| && window == granted[|granted| - |window|..]
    && (forall i | 0 <= i < |granted| - |window| :: clock - granted[i] >= WINDOW)
    && (forall i | 0 <= i < |granted| - LIMIT :: granted[i + LIMIT] - granted[i] >= WINDOW)
  }

  lemma RemembersLater(window: seq<int>, granted: seq<int>, clock: int, later: int)
    requires Remembers(window, granted, clock) && clock <= later
    ensures Remembers(window, granted, later)
  {}

  /** Filtering forgets nothing that is still inside the window. */
  lemma FilterRemembers(window: seq<int>, granted: seq<int>, clock: int, now: int)
    requires Remembers(window, granted, clock) && clock <= now
    ensures Remembers(Recent(window, now), granted, now)
  {
    var known := |granted| - |window|;
    assert forall i | 0 <= i < |window| :: window[i] == granted[known + i];
    var dropped := RecentIsSuffix(window, now);
    assert Recent(window, now) == window[dropped..] == granted[known + dropped..];
    forall i | 0 <= i < known + dropped ensures now - granted[i] >= WINDOW {
      if i >= known { assert granted[i] == window[i - known]; }
    }
  }

  /** A grant with fewer than three remembered: the third to last is forgotten, so a window old. */
  lemma GrantRemembers(recent: seq<int>, granted: seq<int>, now: int)
    requires Remembers(recent, granted, now) && |recent| < LIMIT
    ensures Remembers(recent + [now], granted + [now], now)
  {
    var all := granted + [now];
    assert all[|all| - |recent| - 1..] == recent + [now];
    forall i | 0 <= i < |all| - LIMIT ensures all[i + LIMIT] - all[i] >= WINDOW {
      if i + LIMIT < |granted| { assert all[i + LIMIT] == granted[i + LIMIT] && all[i] == granted[i]; }
    }
  }
}
