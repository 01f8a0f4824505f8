/** Several manager processes on one host. Each follows SessionProtocol on its own; they meet only in the
    lock files, which the host grants exclusively, and in the processes it runs. */
module SharedHost {
  import opened Basics
  import opened SessionProtocol
  import opened SupervisionTheorems

  // The host keeps the intent files; what it runs, it runs whoever started it.
  datatype Host = Host(managers: map<nat, Manager>, locks: map<Dir, nat>, installs: map<Dir, nat>,
    running: set<Process>,
                       files: map<Dir, Option<Intent>>)

  datatype Move =
    | Acts(who: nat, e: Event)
    | Dies(process: Process)
    // A manager process is started, anew or after a crash: the host has dropped its locks, its Java process
    // stays, and what it remembered is lost but for the files.
    | Begins(who: nat, config: Config, now: int)

  /** Every process in the manager's program directory looks like its own. */
  predicate OnlyLookalikes(running: set<Process>, m: Manager) {
    forall p | p in running && p.instance.program == m.own.config.gatewayDir :: Recoverable(m.own.config, p)
  }

  /** No process of another instance runs in the manager's program directory. */
  predicate NoStranger(running: set<Process>, m: Manager) {
    forall p | p in running && p.instance.program == m.own.config.gatewayDir :: p.instance == InstanceOf(m.own.config)
  }

  /** What the host has to say to an event: locks are exclusive, only a running process is found or terminated,
      and an inspection passes over the process it found and over no other. */
  predicate Allowed(h: Host, own: Holdings, e: HostStep) {
    match e
    case LockTried(dir, granted) => granted ==> dir !in h.locks
    case InstallTried(program, granted) => granted ==> program !in h.installs
    case IdleConfirmed(inspected, found) =>
      && (found.Some? ==> found.value in h.running)
      && (inspected ==> forall p | p in h.running && p.instance.program == own.config.gatewayDir :: Some(p) == found)
    case ProcessStarted(p) => forall q | q in h.running :: q.pid != p.pid
    case ProcessTerminated(p, _) => p in h.running
    case _ => true
  }

  predicate Possible(h: Host, move: Move) {
    match move
    case Acts(who, e) =>
      && who in h.managers && Enabled(h.managers[who], e)
      && (e.Hosts? ==> Allowed(h, h.managers[who].own, e.host))
    case Dies(_) => true
    case Begins(_, _, _) => true
  }

  function Without(m: map<Dir, nat>, value: nat): map<Dir, nat> {
    map dir | dir in m && m[dir] != value :: m[dir]
  }

  // What an event does to a lock file: both kinds of lock are taken and dropped alike.
  datatype Claim = Takes(dir: Dir) | Drops(dir: Dir) | Neither

  function LockClaim(own: Holdings, e: HostStep): Claim {
    match e
    case LockTried(dir, granted) => if granted then Takes(dir) else Neither
    case LockReleased => Drops(own.config.stateDir)
    case _ => Neither
  }

  function InstallClaim(own: Holdings, e: HostStep): Claim {
    match e
    case InstallTried(program, granted) => if granted then Takes(program) else Neither
    case InstallReleased => Drops(own.config.gatewayDir)
    case _ => Neither
  }

  /** The host's side of a claim. */
  function Claimed(table: map<Dir, nat>, who: nat, c: Claim): map<Dir, nat> {
    match c
    case Takes(dir) => table[dir := who]
    case Drops(dir) => table - {dir}
    case Neither => table
  }

  function RunningAfter(running: set<Process>, e: HostStep): set<Process> {
    match e
    case ProcessStarted(p) => running + {p}
    case ProcessTerminated(p, gone) => if gone then running - {p} else running
    case _ => running
  }

  function FilesAfter(files: map<Dir, Option<Intent>>, e: HostStep): map<Dir, Option<Intent>> {
    if e.IntentSaved? then files[e.dir := Some(e.intent)] else files
  }

  function After(h: Host, move: Move): Host
    requires Possible(h, move)
  {
    match move
    case Acts(who, e) =>
      var own, managers := h.managers[who].own, h.managers[who := Apply(h.managers[who], e)];
      if e.Hosts? then
        Host(managers, Claimed(h.locks, who, LockClaim(own, e.host)),
          Claimed(h.installs, who, InstallClaim(own, e.host)),
             RunningAfter(h.running, e.host), FilesAfter(h.files, e.host))
      else h.(managers := managers)
    case Dies(process) => h.(running := h.running - {process})
    case Begins(who, config, now) =>
      h.(managers := h.managers[who := Started(config, h.files, now)],
         locks := Without(h.locks, who), installs := Without(h.installs, who))
  }

  ghost predicate AllSupervised(h: Host) {
    forall who | who in h.managers :: Supervised(h.managers[who])
  }

  ghost predicate LocksMatch(h: Host) {
    forall who, dir | who in h.managers ::
      h.managers[who].own.processLock == Some(dir) <==> dir in h.locks && h.locks[dir] == who
  }

  ghost predicate InstallsMatch(h: Host) {
    forall who, dir | who in h.managers ::
      h.managers[who].own.installLock == Some(dir) <==> dir in h.installs && h.installs[dir] == who
  }

  ghost predicate IdleHolds(h: Host) {
    forall who | who in h.managers && h.managers[who].own.inspected :: OnlyLookalikes(h.running, h.managers[who])
  }

  ghost predicate Sound(h: Host) {
    AllSupervised(h) && LocksMatch(h) && InstallsMatch(h) && IdleHolds(h)
  }

  /** What a claim leaves its own manager with. */
  function HeldBy(held: Option<Dir>, c: Claim): Option<Dir> {
    if c.Takes? then Some(c.dir) else if c.Drops? then None else held
  }

  /** A claim takes a free lock or drops one's own. */
  ghost predicate Fair(held: Option<Dir>, table: map<Dir, nat>, who: nat, c: Claim) {
    && (c.Takes? ==> held.None? && c.dir !in table)
    && (c.Drops? ==> held == Some(c.dir) && c.dir in table && table[c.dir] == who)
  }

  lemma ClaimMatches(held: Option<Dir>, table: map<Dir, nat>, who: nat, c: Claim, dir: Dir, other: nat)
    requires Fair(held, table, who, c) && (held == Some(dir) <==> dir in table && table[dir] == who)
    ensures var after := Claimed(table, who, c);
      && (HeldBy(held, c) == Some(dir) <==> dir in after && after[dir] == who)
      && (other != who ==> (dir in after && after[dir] == other <==> dir in table && table[dir] == other))
  {}

  lemma LockIsFair(h: Host, who: nat, e: HostStep, other: nat)
    requires AllSupervised(h) && LocksMatch(h) && InstallsMatch(h) && Possible(h, Acts(who, Hosts(e)))
      && other in h.managers
    ensures var own, n := h.managers[who].own, After(h, Acts(who, Hosts(e)));
      && Fair(own.processLock, h.locks, who, LockClaim(own, e)) && n.locks == Claimed(h.locks, who, LockClaim(own, e))
      && other in n.managers
      && n.managers[other].own.processLock == if other == who then HeldBy(own.processLock, LockClaim(own, e))
        else h.managers[other].own.processLock
  {
    assert Watchful(h.managers[who].watch, h.managers[who].own);
    hide RecordAfter, PassAfter, BooksAfter;
  }

  lemma InstallIsFair(h: Host, who: nat, e: HostStep, other: nat)
    requires AllSupervised(h) && LocksMatch(h) && InstallsMatch(h) && Possible(h, Acts(who, Hosts(e)))
      && other in h.managers
    ensures var own, n := h.managers[who].own, After(h, Acts(who, Hosts(e)));
      && Fair(own.installLock, h.installs, who, InstallClaim(own, e))
      && n.installs == Claimed(h.installs, who, InstallClaim(own, e))
      && other in n.managers
      && n.managers[other].own.installLock == if other == who then HeldBy(own.installLock, InstallClaim(own, e))
        else h.managers[other].own.installLock
  {
    assert Watchful(h.managers[who].watch, h.managers[who].own);
    hide RecordAfter, PassAfter, BooksAfter;
  }

  lemma LocksMean(h: Host, who: nat, dir: Dir)
    requires LocksMatch(h) && who in h.managers
    ensures h.managers[who].own.processLock == Some(dir) <==> dir in h.locks && h.locks[dir] == who
  {}

  lemma InstallsMean(h: Host, who: nat, dir: Dir)
    requires InstallsMatch(h) && who in h.managers
    ensures h.managers[who].own.installLock == Some(dir) <==> dir in h.installs && h.installs[dir] == who
  {}

  lemma KeepsLock(h: Host, who: nat, e: HostStep, other: nat, dir: Dir)
    requires AllSupervised(h) && LocksMatch(h) && InstallsMatch(h) && Possible(h, Acts(who, Hosts(e)))
      && other in h.managers
    ensures var n := After(h, Acts(who, Hosts(e)));
      other in n.managers && (n.managers[other].own.processLock == Some(dir) <==>
        dir in n.locks && n.locks[dir] == other)
  {
    var own := h.managers[who].own;
    hide InstallsMatch, LocksMatch, Possible, After;
    LockIsFair(h, who, e, other);
    LocksMean(h, who, dir);
    LocksMean(h, other, dir);
    hide After, Possible, Supervised, Fair, Claimed, HeldBy, LockClaim, InstallClaim, LocksMatch, AllSupervised;
    ClaimMatches(own.processLock, h.locks, who, LockClaim(own, e), dir, other);
  }

  lemma KeepsInstall(h: Host, who: nat, e: HostStep, other: nat, dir: Dir)
    requires AllSupervised(h) && LocksMatch(h) && InstallsMatch(h) && Possible(h, Acts(who, Hosts(e)))
      && other in h.managers
    ensures var n := After(h, Acts(who, Hosts(e)));
      other in n.managers && (n.managers[other].own.installLock == Some(dir) <==>
        dir in n.installs && n.installs[dir] == other)
  {
    var own := h.managers[who].own;
    hide LocksMatch, InstallsMatch, Possible, After;
    InstallIsFair(h, who, e, other);
    InstallsMean(h, who, dir);
    InstallsMean(h, other, dir);
    hide After, Possible, Supervised, Fair, Claimed, HeldBy, LockClaim, InstallClaim, InstallsMatch, AllSupervised;
    ClaimMatches(own.installLock, h.installs, who, InstallClaim(own, e), dir, other);
  }

  lemma KeepsLocks(h: Host, who: nat, e: HostStep)
    requires AllSupervised(h) && LocksMatch(h) && InstallsMatch(h) && Possible(h, Acts(who, Hosts(e)))
    ensures LocksMatch(After(h, Acts(who, Hosts(e)))) && InstallsMatch(After(h, Acts(who, Hosts(e))))
  {
    var n := After(h, Acts(who, Hosts(e)));
    assert n.managers.Keys == h.managers.Keys;
    hide After, Supervised, Possible, LocksMatch, InstallsMatch, AllSupervised;
    forall other, dir | other in n.managers ensures n.managers[other].own.processLock == Some(dir) <==>
      dir in n.locks && n.locks[dir] == other {
      KeepsLock(h, who, e, other, dir);
    }
    forall other, dir | other in n.managers ensures n.managers[other].own.installLock == Some(dir) <==>
      dir in n.installs && n.installs[dir] == other {
      KeepsInstall(h, who, e, other, dir);
    }
    Matched(n);
  }

  lemma Matched(h: Host)
    requires forall who, dir | who in h.managers :: h.managers[who].own.processLock == Some(dir) <==>
      dir in h.locks && h.locks[dir] == who
    requires forall who, dir | who in h.managers :: h.managers[who].own.installLock == Some(dir) <==>
      dir in h.installs && h.installs[dir] == who
    ensures LocksMatch(h) && InstallsMatch(h)
  {}

  /** What is not done on the host leaves the locks alone. */
  lemma OthersKeepLocks(h: Host, who: nat, e: Event)
    requires LocksMatch(h) && InstallsMatch(h) && Possible(h, Acts(who, e)) && !e.Hosts?
    ensures LocksMatch(After(h, Acts(who, e))) && InstallsMatch(After(h, Acts(who, e)))
  {
    var n := After(h, Acts(who, e));
    assert n.locks == h.locks && n.installs == h.installs && n.managers[who].own == h.managers[who].own;
    hide After, Possible;
  }

  lemma BeginLocks(h: Host, move: Move)
    requires LocksMatch(h) && InstallsMatch(h) && move.Begins?
    ensures LocksMatch(After(h, move)) && InstallsMatch(After(h, move))
  {
    var n, who, begun := After(h, move), move.who, Started(move.config, h.files, move.now);
    assert n.managers == h.managers[who := begun] && n.locks == Without(h.locks, who)
      && n.installs == Without(h.installs, who);
    assert begun.own.processLock.None? && begun.own.installLock.None?;
    hide Started, After, Possible;
  }

  /** A manager that starts holds nothing, and the others keep what they held. */
  lemma BeginKeeps(h: Host, move: Move)
    requires Sound(h) && move.Begins?
    ensures Sound(After(h, move))
  {
    BeginLocks(h, move);
    var n, who, begun := After(h, move), move.who, Started(move.config, h.files, move.now);
    StartedSupervised(move.config, h.files, move.now);
    assert n.managers == h.managers[who := begun] && n.running == h.running && !begun.own.inspected;
    hide Started, Supervised, OnlyLookalikes, After, Possible, LocksMatch, InstallsMatch;
  }

  /** The acting manager keeps what its own inspection found. */
  lemma OwnIdle(h: Host, m: Manager, e: HostStep)
    requires Watchful(m.watch, m.own) && HostEnabled(m.watch, m.own, e) && Allowed(h, m.own, e)
    requires m.own.inspected ==> OnlyLookalikes(h.running, m)
    ensures var n := m.(own := Held(m.own, e)); n.own.inspected ==> OnlyLookalikes(RunningAfter(h.running, e), n)
  {}

  /** Only the holder of the install lock starts a process in a directory. */
  lemma OtherIdle(h: Host, m: Manager, e: HostStep, other: Manager)
    requires HostEnabled(m.watch, m.own, e) && OnlyLookalikes(h.running, other)
    requires m.own.installLock != Some(other.own.config.gatewayDir)
    ensures OnlyLookalikes(RunningAfter(h.running, e), other)
  {}

  lemma SameIdle(running: set<Process>, a: Manager, b: Manager)
    requires a.own == b.own
    ensures OnlyLookalikes(running, a) <==> OnlyLookalikes(running, b)
  {}

  lemma KeepsIdleOf(h: Host, who: nat, e: Event, other: nat)
    requires Sound(h) && Possible(h, Acts(who, e)) && other in h.managers
      && After(h, Acts(who, e)).managers[other].own.inspected
    ensures var n := After(h, Acts(who, e)); OnlyLookalikes(n.running, n.managers[other])
  {
    var m, o, n := h.managers[who], h.managers[other], After(h, Acts(who, e));
    assert Watchful(m.watch, m.own) && Watchful(o.watch, o.own);
    hide RecordAfter, Watched, PassAfter, BooksAfter, Watchful, OnlyLookalikes, LocksMatch, Held, HostEnabled, Allowed,
         RunningAfter;
    if !e.Hosts? {
      SameIdle(h.running, o, n.managers[other]);
    } else if other == who {
      OwnIdle(h, m, e.host);
      SameIdle(n.running, m.(own := Held(m.own, e.host)), n.managers[other]);
    } else {
      InspectsUnderLock(h, other);
      OtherIdle(h, m, e.host, o);
    }
  }

  lemma InspectsUnderLock(h: Host, who: nat)
    requires AllSupervised(h) && InstallsMatch(h) && who in h.managers && h.managers[who].own.inspected
    ensures forall other | other in h.managers && other != who ::
      h.managers[other].own.installLock != Some(h.managers[who].own.config.gatewayDir)
  {
    assert Watchful(h.managers[who].watch, h.managers[who].own);
    assert h.managers[who].own.installLock == Some(h.managers[who].own.config.gatewayDir);
  }

  /** A confirmed idleness lasts while its lock is held. */
  lemma KeepsIdle(h: Host, who: nat, e: Event)
    requires Sound(h) && Possible(h, Acts(who, e))
    ensures IdleHolds(After(h, Acts(who, e)))
  {
    var n := After(h, Acts(who, e));
    assert n.managers.Keys == h.managers.Keys;
    hide Sound, Possible, After, OnlyLookalikes;
    forall other | other in n.managers
      && n.managers[other].own.inspected ensures OnlyLookalikes(n.running, n.managers[other]) {
      KeepsIdleOf(h, who, e, other);
    }
  }

  lemma ActsSupervised(h: Host, who: nat, e: Event)
    requires AllSupervised(h) && Possible(h, Acts(who, e))
    ensures AllSupervised(After(h, Acts(who, e)))
  {
    StepSupervised(h.managers[who], e);
    hide Supervised, Enabled, Apply;
  }

  lemma ActsSound(h: Host, who: nat, e: Event)
    requires Sound(h) && Possible(h, Acts(who, e))
    ensures Sound(After(h, Acts(who, e)))
  {
    ActsSupervised(h, who, e);
    KeepsIdle(h, who, e);
    hide After, Possible, AllSupervised, LocksMatch, InstallsMatch, IdleHolds;
    if e.Hosts? {
      KeepsLocks(h, who, e.host);
    } else {
      OthersKeepLocks(h, who, e);
    }
  }

  lemma DeathSound(h: Host, process: Process)
    requires Sound(h)
    ensures Sound(After(h, Dies(process)))
  {
    hide Supervised, Possible;
  }

  lemma MoveSound(h: Host, move: Move)
    requires Sound(h) && Possible(h, move)
    ensures Sound(After(h, move))
  {
    hide Sound, After, Possible;
    match move
    case Acts(who, e) => ActsSound(h, who, e);
    case Dies(process) => DeathSound(h, process);
    case Begins(_, _, _) => BeginKeeps(h, move);
  }

  // ---------- what every move keeps ----------

  /** The directory's process lock is this manager's, and no other manager thinks that it holds it. */
  ghost predicate Owns(h: Host, who: nat, dir: Dir) {
    && dir in h.locks && h.locks[dir] == who
    && forall other | other in h.managers && other != who :: h.managers[other].own.processLock != Some(dir)
  }

  /** Under the configured directory's lock only: an intent file written, a process started, a process that
      looks like the instance's terminated, trees exchanged; and the last under the program's install lock. */
  ghost predicate Lawful(h: Host, move: Move) {
    move.Acts? && move.e.Hosts? && move.who in h.managers ==>
      var m, e := h.managers[move.who], move.e.host;
      && (e.IntentSaved? || e.ProcessTerminated? || e.ProcessStarted? || e.ProgramRenamed? ==>
        Owns(h, move.who, m.own.config.stateDir))
      && (e.IntentSaved? ==> e.dir == m.own.config.stateDir)
      && (e.ProcessStarted? ==> e.process.instance == InstanceOf(m.own.config))
      && (e.ProcessTerminated? ==> Recoverable(m.own.config, e.process))
      && (e.ProgramRenamed? ==>
          && (m.own.inspected ==> OnlyLookalikes(h.running, m))
          && forall other | other in h.managers && other != move.who ::
            h.managers[other].own.installLock != Some(m.own.config.gatewayDir))
  }

  lemma MoveLawful(h: Host, move: Move)
    requires Sound(h) && Possible(h, move)
    ensures Lawful(h, move)
  {}

  predicate Feasible(h: Host, moves: seq<Move>)
    decreases |moves|
  {
    moves == [] || (Possible(h, moves[0]) && Feasible(After(h, moves[0]), moves[1..]))
  }

  /** The host before the k-th move. */
  function At(h: Host, moves: seq<Move>, k: nat): Host
    requires Feasible(h, moves) && k <= |moves|
    decreases k
  {
    if k == 0 then h else At(After(h, moves[0]), moves[1..], k - 1)
  }

  /** In every interleaving of any number of managers, crashes and process deaths, every move is lawful. */
  lemma {:induction false} EveryMoveIsLawful(h: Host, moves: seq<Move>, k: nat)
    requires Sound(h) && Feasible(h, moves) && k < |moves|
    decreases k
    ensures Sound(At(h, moves, k)) && Possible(At(h, moves, k), moves[k])
    ensures Lawful(At(h, moves, k), moves[k])
  {
    hide Sound, Possible, After, Lawful;
    if k == 0 {
      MoveLawful(h, moves[0]);
    } else {
      MoveSound(h, moves[0]);
      EveryMoveIsLawful(After(h, moves[0]), moves[1..], k - 1);
    }
  }

  /** Freshly started managers, over any processes left running, are sound. */
  lemma FreshHostIsSound(h: Host)
    requires Fresh(h)
    ensures Sound(h)
  {
    forall who | who in h.managers ensures Supervised(h.managers[who]) {
      StartedSupervised(h.managers[who].own.config, h.files, h.managers[who].clock);
    }
  }

  ghost predicate Fresh(h: Host) {
    && h.locks == map[] && h.installs == map[]
    && forall who | who in h.managers ::
      h.managers[who] == Started(h.managers[who].own.config, h.files, h.managers[who].clock)
  }
}
