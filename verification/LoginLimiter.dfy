/** The login limiter: one window per socket peer (internal/service/auth.go, allowLoginAttempt). */
module LoginLimiter {
  import opened Basics

  type Peer = string

  datatype Window = Window(count: nat, expires: int)

  const PER_WINDOW: nat := 20
  const PEERS: nat := 4096

  ghost predicate Ordered(times: seq<int>) {
    forall i, j | 0 <= i <= j < |times| :: times[i] <= times[j]
  }

  /** The allowed attempts of one peer fall into windows: `starts` are the indices of their first attempts. */
  ghost predicate Windowed(times: seq<int>, starts: seq<nat>) {
    && Ordered(times) && (times == [] <==> starts == []) && (starts != [] ==> starts[0] == 0)
    && (forall k | 0 <= k < |starts| :: starts[k] < |times|)
    && (forall k | 0 < k < |starts| :: starts[k - 1] < starts[k] <= starts[k - 1] + PER_WINDOW)
    && (forall k | 0 < k < |starts| :: times[starts[k - 1]] + MINUTE <= times[starts[k]])
    && (starts != [] ==> |times| <= starts[|starts| - 1] + PER_WINDOW)
  }

  /** The window that holds the i-th attempt. */
  lemma {:induction false} Locate(times: seq<int>, starts: seq<nat>, i: nat, upto: nat) returns (k: nat)
    requires Windowed(times, starts) && i < |times| && 0 < upto <= |starts|
    requires upto < |starts| ==> i < starts[upto]
    ensures k < |starts| && starts[k] <= i && (k + 1 < |starts| ==> i < starts[k + 1])
  {
    k := upto - 1;
    if i < starts[k] { k := Locate(times, starts, i, k); }
  }

  /** Of any forty-one consecutive allowed attempts of a peer, the last comes a minute or more after the first. */
  lemma FortyPerMinute(times: seq<int>, starts: seq<nat>, i: nat)
    requires Windowed(times, starts) && i + 2 * PER_WINDOW < |times|
    ensures times[i + 2 * PER_WINDOW] - times[i] >= MINUTE
  {
    var k := Locate(times, starts, i, |starts|);
    assert k + 2 < |starts|;
    assert starts[k + 2] <= i + 2 * PER_WINDOW;
    assert times[i] <= times[starts[k + 1]];
    assert times[starts[k + 1]] + MINUTE <= times[starts[k + 2]] <= times[i + 2 * PER_WINDOW];
  }

  /** What the table remembers of a peer: its current window, while it lasts. */
  ghost predicate Remembered(times: seq<int>, starts: seq<nat>, table: map<Peer, Window>, peer: Peer, clock: int) {
    && Windowed(times, starts) && (times != [] ==> times[|times| - 1] <= clock)
    && (peer in table ==> starts != [] && var first := starts[|starts| - 1];
          table[peer].count == |times| - first && table[peer].expires == times[first] + MINUTE)
    && (peer !in table && starts != [] ==> times[starts[|starts| - 1]] + MINUTE <= clock)
  }

  datatype History = History(times: seq<int>, starts: seq<nat>)

  function Of(histories: map<Peer, History>, peer: Peer): History {
    if peer in histories then histories[peer] else History([], [])
  }

  ghost predicate AllRemembered(histories: map<Peer, History>, table: map<Peer, Window>, clock: int) {
    forall p :: Remembered(Of(histories, p).times, Of(histories, p).starts, table, p, clock)
  }

  function Live(table: map<Peer, Window>, now: int): map<Peer, Window> {
    map p | p in table && now < table[p].expires :: table[p]
  }

  lemma SweepRemembers(histories: map<Peer, History>, table: map<Peer, Window>, clock: int, now: int)
    requires AllRemembered(histories, table, clock) && clock <= now
    ensures AllRemembered(histories, Live(table, now), now)
  {
    forall p ensures Remembered(Of(histories, p).times, Of(histories, p).starts, Live(table, now), p, now) {
      assert Remembered(Of(histories, p).times, Of(histories, p).starts, table, p, clock);
    }
  }

  lemma OrderedAppend(times: seq<int>, now: int)
    requires Ordered(times) && (times != [] ==> times[|times| - 1] <= now)
    ensures Ordered(times + [now])
  {
    assert forall i | 0 <= i < |times| :: times[i] <= times[|times| - 1];
  }

  lemma NewWindow(times: seq<int>, starts: seq<nat>, now: int)
    requires Windowed(times, starts) && (times != [] ==> times[|times| - 1] <= now)
    requires starts != [] ==> times[starts[|starts| - 1]] + MINUTE <= now
    ensures Windowed(times + [now], starts + [|times|])
  {
    OrderedAppend(times, now);
    hide Ordered;
  }

  lemma SameWindow(times: seq<int>, starts: seq<nat>, now: int)
    requires Windowed(times, starts) && starts != [] && times[|times| - 1] <= now
    requires |times| < starts[|starts| - 1] + PER_WINDOW
    ensures Windowed(times + [now], starts)
  {
    OrderedAppend(times, now);
    hide Ordered;
  }

  /** One more attempt of a peer, in its window or in a new one. */
  lemma AttemptRemembers(h: History, table: map<Peer, Window>, peer: Peer, now: int, window: Window)
    requires Remembered(h.times, h.starts, table, peer, now) && window.count < PER_WINDOW
    requires window == if peer in table then table[peer] else Window(0, now + MINUTE)
    requires peer in table ==> window.count > 0
    ensures var starts := if peer in table then h.starts else h.starts + [|h.times|];
      Remembered(h.times + [now], starts, table[peer := window.(count := window.count + 1)], peer, now)
  {
    if peer in table { SameWindow(h.times, h.starts, now); } else { NewWindow(h.times, h.starts, now); }
    assert forall i | 0 <= i < |h.times| :: (h.times + [now])[i] == h.times[i];
  }

  class Limiter {
    var attempts: map<Peer, Window>
    ghost var clock: int
    // The allowed attempts of every peer, and where its windows began.
    ghost var histories: map<Peer, History>

    ghost predicate Valid()
      reads this
    {
      && |attempts| <= PEERS && (forall p | p in attempts :: 0 < attempts[p].count <= PER_WINDOW)
      && AllRemembered(histories, attempts, clock)
    }

    constructor (now: int)
      ensures Valid() && clock == now && histories == map[]
    {
      attempts, clock, histories := map[], now, map[];
    }

    /** Drop the windows that are over. */
    method Sweep(now: int)
      requires Valid() && clock <= now
      modifies `attempts, `clock
      ensures Valid() && clock == now && attempts == Live(old(attempts), now)
    {
      hide AllRemembered;
      SweepRemembers(histories, attempts, clock, now);
      var keys := attempts.Keys;
      while keys != {}
        invariant keys <= old(attempts).Keys && attempts.Keys <= old(attempts).Keys
        invariant forall p | p in old(attempts) :: p in attempts <==> p in keys || now < old(attempts)[p].expires
        invariant forall p | p in attempts :: attempts[p] == old(attempts)[p]
        invariant |attempts| <= PEERS
      {
        var p :| p in keys;
        if attempts[p].expires <= now { attempts := attempts - {p}; }
        keys := keys - {p};
      }
      assert attempts == Live(old(attempts), now);
      clock := now;
    }

    /** allowLoginAttempt: yes while the peer's window has room, or if a new window still fits the table. */
    method Allow(peer: Peer, now: int) returns (ok: bool)
      requires Valid() && clock <= now
      modifies this
      ensures Valid() && clock == now
      ensures var live := Live(old(attempts), now); ok <==>
        if peer in live then live[peer].count < PER_WINDOW else |live| < PEERS
      ensures Of(histories, peer).times == Of(old(histories), peer).times + if ok then [now] else []
      ensures forall p | p != peer :: Of(histories, p) == Of(old(histories), p)
    {
      hide AllRemembered;
      Sweep(now);
      var window := Window(0, now + MINUTE);
      if peer in attempts {
        window := attempts[peer];
      } else if |attempts| >= PEERS {
        return false;
      }
      if window.count >= PER_WINDOW { return false; }
      ghost var h := Of(histories, peer);
      ghost var starts := if peer in attempts then h.starts else h.starts + [|h.times|];
      Grows(histories, attempts, peer, now, window);
      attempts := attempts[peer := window.(count := window.count + 1)];
      histories := histories[peer := History(h.times + [now], starts)];
      ok := true;
    }
  }

  lemma Grows(histories: map<Peer, History>, table: map<Peer, Window>, peer: Peer, now: int, window: Window)
    requires AllRemembered(histories, table, now) && window.count < PER_WINDOW
    requires window == if peer in table then table[peer] else Window(0, now + MINUTE)
    requires peer in table ==> window.count > 0
    ensures var h := Of(histories, peer);
      var starts := if peer in table then h.starts else h.starts + [|h.times|];
      AllRemembered(histories[peer := History(h.times + [now], starts)],
        table[peer := window.(count := window.count + 1)], now)
  {
    hide Windowed;
    var h := Of(histories, peer);
    AttemptRemembers(h, table, peer, now, window);
    var starts := if peer in table then h.starts else h.starts + [|h.times|];
    var after, table' := histories[peer := History(h.times + [now], starts)],
      table[peer := window.(count := window.count + 1)];
    forall p ensures Remembered(Of(after, p).times, Of(after, p).starts, table', p, now) {
      assert p != peer ==> Remembered(Of(histories, p).times, Of(histories, p).starts, table, p, now);
    }
  }

  /** Whatever the peers do, no half-open minute holds more than forty allowed attempts of one of them. */
  lemma NoMinuteHoldsMore(limiter: Limiter, peer: Peer, i: nat)
    requires limiter.Valid() && i + 40 < |Of(limiter.histories, peer).times|
    ensures var times := Of(limiter.histories, peer).times; times[i + 40] - times[i] >= MINUTE
  {
    var h := Of(limiter.histories, peer);
    assert Remembered(h.times, h.starts, limiter.attempts, peer, limiter.clock);
    FortyPerMinute(h.times, h.starts, i);
  }
}
