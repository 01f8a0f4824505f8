/** Whose process it is, whose file it is, and what the idle check can promise: the exact conditions under which
    managers that share a host keep out of each other's way. */
module HostTheorems {
  import opened Basics
  import opened SessionProtocol
  import opened SupervisionTheorems
  import opened SharedHost
  import Acceptance = ConfigAcceptance
  import IntentTheorems

  // ---------- whose process it is ----------

  /** No two instances look alike to recovery and keep their state apart. */
  predicate TellApart(fleet: set<Instance>) {
    forall a, b | a in fleet && b in fleet && SameLooks(a, b) :: a == b
  }

  /** Only instances of the fleet are configured or run. */
  ghost predicate Deployed(h: Host, fleet: set<Instance>) {
    && (forall who | who in h.managers :: InstanceOf(h.managers[who].own.config) in fleet)
    && (forall p | p in h.running :: p.instance in fleet)
  }

  predicate Deploys(move: Move, fleet: set<Instance>) {
    match move
    case Acts(_, Hosts(ConfigSet(config))) => InstanceOf(config) in fleet
    case Begins(_, config, _) => InstanceOf(config) in fleet
    case _ => true
  }

  /** A run of the fleet, from managers just started. */
  ghost predicate Run(h: Host, moves: seq<Move>, fleet: set<Instance>) {
    Fresh(h) && Deployed(h, fleet) && Feasible(h, moves) && forall move | move in moves :: Deploys(move, fleet)
  }

  /** A process is terminated only by the holder of its directory's lock, and trees that were inspected are
      exchanged only while no other instance runs in them. */
  ghost predicate OwnOnly(h: Host, move: Move) {
    move.Acts? && move.e.Hosts? && move.who in h.managers ==>
      var m, e := h.managers[move.who], move.e.host;
      && (e.ProcessTerminated? ==> Owns(h, move.who, e.process.instance.stateDir))
      && (e.ProgramRenamed? && m.own.inspected ==> NoStranger(h.running, m))
  }

  lemma ApartOwnOnly(h: Host, move: Move, fleet: set<Instance>)
    requires Lawful(h, move) && Possible(h, move) && Deployed(h, fleet) && TellApart(fleet)
    ensures OwnOnly(h, move)
  {}

  lemma MoveDeploys(h: Host, move: Move, fleet: set<Instance>)
    requires Possible(h, move) && Deployed(h, fleet) && Deploys(move, fleet)
    ensures Deployed(After(h, move), fleet)
  {}

  lemma {:induction false} StaysDeployed(h: Host, moves: seq<Move>, fleet: set<Instance>, k: nat)
    requires Deployed(h, fleet) && Feasible(h, moves) && k <= |moves| && forall move | move in moves ::
      Deploys(move, fleet)
    ensures Deployed(At(h, moves, k), fleet)
    decreases k
  {
    hide Deployed, Deploys, Possible, After;
    if k > 0 {
      MoveDeploys(h, moves[0], fleet);
      assert forall move | move in moves[1..] :: move in moves;
      StaysDeployed(After(h, moves[0]), moves[1..], fleet, k - 1);
    }
  }

  lemma ApartIsSafe(h: Host, moves: seq<Move>, fleet: set<Instance>, k: nat)
    requires TellApart(fleet) && Run(h, moves, fleet) && k < |moves|
    ensures OwnOnly(At(h, moves, k), moves[k])
  {
    hide Deployed, Deploys, Possible, Sound, Lawful, OwnOnly, Fresh, Feasible, At, TellApart;
    FreshHostIsSound(h);
    EveryMoveIsLawful(h, moves, k);
    StaysDeployed(h, moves, fleet, k);
    ApartOwnOnly(At(h, moves, k), moves[k], fleet);
  }

  // Runs given by the hosts they lead through.

  ghost predicate MovesTo(h: Host, move: Move, n: Host) {
    Possible(h, move) && n == After(h, move)
  }

  ghost predicate Travels(moves: seq<Move>, hosts: seq<Host>) {
    |hosts| == |moves| + 1 && forall i | 0 <= i < |moves| :: MovesTo(hosts[i], moves[i], hosts[i + 1])
  }

  lemma {:induction false} PathFeasible(moves: seq<Move>, hosts: seq<Host>, k: nat)
    requires Travels(moves, hosts) && k <= |moves|
    ensures Feasible(hosts[0], moves) && At(hosts[0], moves, k) == hosts[k]
    decreases |moves|
  {
    hide Possible, After;
    if moves != [] {
      assert MovesTo(hosts[0], moves[0], hosts[1]);
      forall i | 0 <= i < |moves[1..]| ensures MovesTo(hosts[1..][i], moves[1..][i], hosts[1..][i + 1]) {
        assert MovesTo(hosts[i + 1], moves[i + 1], hosts[i + 1 + 1]);
      }
      PathFeasible(moves[1..], hosts[1..], if k == 0 then 0 else k - 1);
    }
  }

  // ---------- two instances that look alike ----------

  /** The second manager's upgrade, event by event: it takes the first one's process for its own. */
  function Mistaken(b: Instance, p: Process): seq<Event> {
    [Hosts(InstallTried(b.program, true)), Hosts(IdleConfirmed(true, Some(p))), Hosts(LockTried(b.stateDir, true)),
     Writes(LifecycleSet(IsUpgrading, "", 0)), Watches(MonitoringCancelled), Hosts(ProcessTerminated(p, false)),
     Writes(WentOffline), Hosts(ProgramRenamed)]
  }

  function Deployment(i: Instance): Config {
    Config(i.stateDir, i.program, i.configFile, i.port, false, false)
  }

  function Doing(who: nat, events: seq<Event>): seq<Move> {
    seq(|events|, i requires 0 <= i < |events| => Acts(who, events[i]))
  }

  function Meeting(a: Instance, b: Instance, p: Process): (moves: seq<Move>)
    ensures |moves| == 9 && forall k | 1 <= k < 9 :: moves[k] == Acts(1, Mistaken(b, p)[k - 1])
  {
    [Acts(0, Hosts(LockTried(a.stateDir, true)))] + Doing(1, Mistaken(b, p))
  }

  /** What the second manager holds before the k-th move. */
  function Holding(b: Instance, k: nat): Holdings {
    Holdings(Deployment(b), if k < 4 then None else Some(b.stateDir), if k < 2 then None else Some(b.program), k >= 3,
      k >= 3, map[])
  }

  lemma HoldsOn(m: Manager, b: Instance, p: Process, k: nat)
    requires 1 <= k < 8 && m.own == Holding(b, k) && m.pass.NoPass? && m.clock == 0
    ensures var n := Apply(m, Mistaken(b, p)[k - 1]);
      n.own == Holding(b, k + 1) && n.pass.NoPass? && n.clock == 0
  {
    hide RecordAfter, Watched, BooksAfter;
  }

  /** The host before the k-th move of that meeting, as far as it matters. */
  ghost predicate Met(h: Host, a: Instance, b: Instance, p: Process, k: nat) {
    && h.managers.Keys == {0, 1} && h.running == {p}
    && h.locks == (if k < 1 then map[] else if k < 4 then map[a.stateDir := 0]
      else map[a.stateDir := 0, b.stateDir := 1])
    && h.installs == (if k < 2 then map[] else map[b.program := 1])
    && h.managers[0].own == Holdings(Deployment(a), if k < 1 then None else Some(a.stateDir), None, false, false, map[])
    && h.managers[1].own == Holding(b, k)
    && h.managers[0].pass.NoPass? && h.managers[1].pass.NoPass? && h.managers[1].clock == 0
  }

  lemma MetPossible(h: Host, a: Instance, b: Instance, p: Process, k: nat)
    requires SameLooks(a, b) && a != b && p.instance == a && Met(h, a, b, p, k) && k <= 8
    ensures Possible(h, Meeting(a, b, p)[k])
  {
    hide Apply;
  }

  lemma MetNext(h: Host, a: Instance, b: Instance, p: Process, k: nat)
    requires a != b && p.instance == a && Met(h, a, b, p, k) && k < 8 && Possible(h, Meeting(a, b, p)[k])
    ensures Met(After(h, Meeting(a, b, p)[k]), a, b, p, k + 1)
  {
    if k > 0 { HoldsOn(h.managers[1], b, p, k); }
    hide Enabled, RecordAfter, Watched, BooksAfter, Allowed, Holding;
    if k == 0 { MetFirst(h, a, b, p); } else { MetMore(h, a, b, p, k); }
  }

  lemma MetFirst(h: Host, a: Instance, b: Instance, p: Process)
    requires a != b && p.instance == a && Met(h, a, b, p, 0) && Possible(h, Meeting(a, b, p)[0])
    ensures Met(After(h, Meeting(a, b, p)[0]), a, b, p, 1)
  {
    hide Enabled, RecordAfter, Watched, BooksAfter, Allowed;
  }

  lemma MetMore(h: Host, a: Instance, b: Instance, p: Process, k: nat)
    requires a != b && p.instance == a && Met(h, a, b, p, k) && 1 <= k < 8 && Possible(h, Meeting(a, b, p)[k])
    requires var n := Apply(h.managers[1], Mistaken(b, p)[k - 1]);
      n.own == Holding(b, k + 1) && n.pass.NoPass? && n.clock == 0
    ensures Met(After(h, Meeting(a, b, p)[k]), a, b, p, k + 1)
  {
    var e := Mistaken(b, p)[k - 1];
    assert Meeting(a, b, p)[k] == Acts(1, e);
    hide Enabled, Apply, Allowed, Holding;
  }

  lemma MeetingHosts(h: Host, a: Instance, b: Instance, p: Process) returns (hosts: seq<Host>)
    requires SameLooks(a, b) && a != b && p.instance == a && Met(h, a, b, p, 0)
    ensures Travels(Meeting(a, b, p), hosts) && hosts[0] == h && forall k | 0 <= k <= 8 :: Met(hosts[k], a, b, p, k)
  {
    hide Meeting, Mistaken, Possible, After, Met;
    var moves := Meeting(a, b, p);
    hosts := [h];
    while |hosts| <= 9
      invariant 1 <= |hosts| <= 10 && hosts[0] == h
      invariant forall k | 0 <= k < |hosts| && k <= 8 :: Met(hosts[k], a, b, p, k)
      invariant forall k | 0 <= k < |hosts| - 1 :: MovesTo(hosts[k], moves[k], hosts[k + 1])
    {
      var k := |hosts| - 1;
      MetPossible(hosts[k], a, b, p, k);
      if k < 8 { MetNext(hosts[k], a, b, p, k); }
      var n := After(hosts[k], moves[k]);
      assert MovesTo(hosts[k], moves[k], n);
      hosts := hosts + [n];
    }
  }

  lemma MeetingStarts(a: Instance, b: Instance, p: Process) returns (h: Host)
    requires p.instance == a
    ensures Met(h, a, b, p, 0) && Fresh(h) && Deployed(h, {a, b}) && forall move | move in Meeting(a, b, p) ::
      Deploys(move, {a, b})
  {
    h := Host(map[0 := Started(Deployment(a), map[], 0), 1 := Started(Deployment(b), map[], 0)], map[], map[], {p},
      map[]);
  }

  /** Two managers of look-alike instances: the process belongs to the first, which holds its lock; the second
      terminates it, and exchanges the trees while it may still run. */
  lemma MistakenRun(a: Instance, b: Instance) returns (h: Host, moves: seq<Move>)
    requires SameLooks(a, b) && a != b
    ensures Run(h, moves, {a, b}) && |moves| == 9
    ensures !OwnOnly(At(h, moves, 6), moves[6]) && moves[6].e.host.ProcessTerminated?
      && Owns(At(h, moves, 6), 0, a.stateDir)
    ensures !OwnOnly(At(h, moves, 8), moves[8]) && moves[8].e.host.ProgramRenamed?
  {
    var p := Process(1, a);
    moves := Meeting(a, b, p);
    h := MeetingStarts(a, b, p);
    var hosts := MeetingHosts(h, a, b, p);
    hide Met, Fresh, Deployed, Possible, After, Meeting, Mistaken, At, Feasible;
    PathFeasible(moves, hosts, 6);
    PathFeasible(moves, hosts, 8);
    MetOver(hosts[6], hosts[8], a, b, p);
  }

  lemma MetOver(hit: Host, last: Host, a: Instance, b: Instance, p: Process)
    requires SameLooks(a, b) && a != b && p.instance == a && Met(hit, a, b, p, 6) && Met(last, a, b, p, 8)
    ensures var moves := Meeting(a, b, p);
      && moves[6].Acts? && moves[6].e.Hosts? && moves[6].e.host.ProcessTerminated? && !OwnOnly(hit, moves[6])
      && Owns(hit, 0, a.stateDir)
      && moves[8].Acts? && moves[8].e.Hosts? && moves[8].e.host.ProgramRenamed? && !OwnOnly(last, moves[8])
  {}

  /** Processes and trees are safe from other instances' managers in every run exactly if no two instances of the
      fleet look alike to recovery. */
  lemma OwnershipIsExact(fleet: set<Instance>)
    ensures TellApart(fleet) <==>
            forall h, moves, k: nat | Run(h, moves, fleet) && k < |moves| :: OwnOnly(At(h, moves, k), moves[k])
  {
    hide OwnOnly, At, Fresh, Feasible, Deployed, Owns, SameLooks;
    if TellApart(fleet) {
      forall h, moves, k: nat | Run(h, moves, fleet) && k < |moves| ensures OwnOnly(At(h, moves, k), moves[k]) {
        ApartIsSafe(h, moves, fleet, k);
      }
    } else {
      var a, b :| a in fleet && b in fleet && SameLooks(a, b) && a != b;
      var h, moves := MistakenRun(a, b);
      WiderFleet(h, moves, {a, b}, fleet);
      assert Run(h, moves, fleet) && !OwnOnly(At(h, moves, 6), moves[6]);
    }
  }

  lemma WiderFleet(h: Host, moves: seq<Move>, some: set<Instance>, fleet: set<Instance>)
    requires Run(h, moves, some) && some <= fleet
    ensures Run(h, moves, fleet)
  {
    hide Fresh, Feasible;
  }

  /** The instances that one configuration deploys. */
  function FleetOf(all: map<Acceptance.Id, Acceptance.Facts>): set<Instance> {
    set id | id in all :: Instance(all[id].program, all[id].instance.configFile, all[id].port, all[id].state)
  }

  /** Within one accepted configuration instances never look alike: only two configurations together can clash. */
  lemma AcceptedTellApart(g: Acceptance.Global, w: Acceptance.World, gateways: map<Acceptance.Id, Acceptance.Instance>)
    requires Acceptance.Acceptable(g, w, gateways)
    ensures TellApart(FleetOf(Acceptance.FactsOf(g, w, gateways, gateways.Keys)))
  {
    hide Acceptance.Examine, Acceptance.Apart, Acceptance.NoSharedIndependent, Acceptance.FactsOf;
    var all := Acceptance.FactsOf(g, w, gateways, gateways.Keys);
    assert Acceptance.Distinct(all, Acceptance.PortOf);
    forall a, b | a in FleetOf(all) && b in FleetOf(all) && SameLooks(a, b) ensures a == b {
      var i :| i in all && a == Instance(all[i].program, all[i].instance.configFile, all[i].port, all[i].state);
      var j :| j in all && b == Instance(all[j].program, all[j].instance.configFile, all[j].port, all[j].state);
      assert Acceptance.PortOf(all[i]) == Acceptance.PortOf(all[j]);
    }
  }

  // ---------- what the idle check promises ----------

  /** A host on which this manager is as it is, and one process runs. */
  function Lone(m: Manager, p: Process): Host {
    Host(map[0 := m],
         if m.own.processLock.Some? then map[m.own.processLock.value := 0] else map[],
         if m.own.installLock.Some? then map[m.own.installLock.value := 0] else map[], {p}, m.own.disk)
  }

  lemma LoneIsSound(m: Manager, p: Process)
    requires Supervised(m) && (m.own.inspected ==> OnlyLookalikes({p}, m))
    ensures Sound(Lone(m, p))
  {}

  /** When trees are about to be exchanged, nobody but processes that look like the instance's own can run in the
      directory exactly if the idle check inspected it. */
  lemma InspectionIsExact(m: Manager)
    requires Supervised(m) && Enabled(m, Hosts(ProgramRenamed))
    ensures m.own.inspected <==>
      forall h | Sound(h) && 0 in h.managers && h.managers[0] == m :: OnlyLookalikes(h.running, m)
  {
    hide Supervised;
    if !m.own.inspected {
      var c := m.own.config;
      var p := Process(1, Instance(c.gatewayDir, c.configFile, c.port + 1, c.stateDir));
      LoneIsSound(m, p);
      assert Sound(Lone(m, p)) && p in Lone(m, p).running;
    }
  }

  /** In a fleet, no other instance can run there exactly if every other one that shares the program can be told
      apart and the directory was inspected. */
  lemma IdlenessIsExact(m: Manager, fleet: set<Instance>)
    requires Supervised(m) && Enabled(m, Hosts(ProgramRenamed)) && InstanceOf(m.own.config) in fleet
    ensures (forall i | i in fleet && i.program == m.own.config.gatewayDir && i != InstanceOf(m.own.config) ::
               m.own.inspected && !SameLooks(i, InstanceOf(m.own.config)))
       <==> (forall h | Sound(h) && Deployed(h, fleet) && 0 in h.managers && h.managers[0] == m ::
         NoStranger(h.running, m))
  {
    hide Supervised;
    var own := InstanceOf(m.own.config);
    forall i | i in fleet && i.program == own.program && i != own && !(m.own.inspected && !SameLooks(i, own))
      ensures exists h ::
        Sound(h) && Deployed(h, fleet) && 0 in h.managers && h.managers[0] == m && !NoStranger(h.running, m)
    {
      var p := Process(1, i);
      LoneIsSound(m, p);
      assert Deployed(Lone(m, p), fleet) && p in Lone(m, p).running;
    }
  }

  // ---------- the intent file, between managers ----------

  /** The manager knows what the host's file of the directory says. */
  predicate Knows(h: Host, who: nat, dir: Dir) {
    who in h.managers && SavedAs(h.managers[who].own.disk, dir) == SavedAs(h.files, dir)
  }

  predicate SavesAbroad(move: Move, who: nat, dir: Dir) {
    move.Acts? && move.who != who && move.e.Hosts? && move.e.host.IntentSaved? && move.e.host.dir == dir
  }

  /** What a manager knows of a file stays true until another manager saves an intent there, and then it is true
      exactly if that is the intent it knows. */
  lemma KnowledgeIsExact(h: Host, who: nat, dir: Dir, move: Move)
    requires Knows(h, who, dir) && Possible(h, move)
    ensures Knows(After(h, move), who, dir) <==>
            SavesAbroad(move, who, dir) ==> move.e.host.intent == SavedAs(h.managers[who].own.disk, dir)
  {
    if move.Acts? {
      ActKeepsFiles(h, move.who, move.e, who);
      hide After;
    }
    hide Enabled, Allowed;
  }

  lemma ActKeepsFiles(h: Host, who: nat, e: Event, other: nat)
    requires Possible(h, Acts(who, e)) && other in h.managers
    ensures var n := After(h, Acts(who, e));
      && n.files == (if e.Hosts? then FilesAfter(h.files, e.host) else h.files) && other in n.managers
      && n.managers[other].own.disk ==
         (if other == who && e.Hosts? then FilesAfter(h.managers[who].own.disk, e.host) else h.managers[other].own.disk)
  {}

  /** What the manager's memory promises of its file. */
  function Promised(m: Manager, log: seq<Event>): Intent {
    if IntentTheorems.Unsettled(log).Some? then IntentTheorems.Unsettled(log).value else m.record.session.desired
  }

  /** A manager that starts knows its file, whoever wrote it last. */
  lemma BeginningKnows(h: Host, who: nat, config: Config, now: int)
    ensures var n := After(h, Begins(who, config, now));
      Knows(n, who, config.stateDir) && n.managers[who].record.session.desired == SavedAs(n.files, config.stateDir)
  {}

  /** Nobody else saves to a directory whose lock the manager holds. */
  lemma LockKeepsOthersOut(h: Host, who: nat, move: Move, dir: Dir)
    requires Sound(h) && Possible(h, move) && who in h.managers && h.managers[who].own.processLock == Some(dir)
    ensures !SavesAbroad(move, who, dir)
  {
    hide OnlyLookalikes, IdleHolds, InstallsMatch, AllSupervised;
  }

  /** While a manager keeps a directory's lock, what it knows of the file stays true. */
  lemma {:induction false} LockKeepsKnowledge(h: Host, moves: seq<Move>, who: nat, dir: Dir, k: nat)
    requires Sound(h) && Feasible(h, moves) && k <= |moves| && Knows(h, who, dir)
    requires forall j: nat | j < k ::
      var at := At(h, moves, j); who in at.managers && at.managers[who].own.processLock == Some(dir)
    ensures Knows(At(h, moves, k), who, dir)
    decreases k
  {
    hide Sound, Possible, After, Knows, SavesAbroad;
    if k > 0 {
      assert At(h, moves, 0) == h;
      LockKeepsOthersOut(h, who, moves[0], dir);
      KnowledgeIsExact(h, who, dir, moves[0]);
      MoveSound(h, moves[0]);
      forall j: nat | j < k - 1 ensures At(After(h, moves[0]), moves[1..], j) == At(h, moves, j + 1) {}
      LockKeepsKnowledge(After(h, moves[0]), moves[1..], who, dir, k - 1);
    }
  }

  // ---------- who saved last ----------

  predicate Saves(move: Move, dir: Dir) {
    move.Acts? && move.e.Hosts? && move.e.host.IntentSaved? && move.e.host.dir == dir
  }

  /** The intent that anyone saved last to the directory, `first` if nobody did. */
  function Latest(moves: seq<Move>, dir: Dir, first: Intent): Intent {
    if moves == [] then first
    else if Saves(moves[|moves| - 1], dir) then moves[|moves| - 1].e.host.intent
    else Latest(moves[..|moves| - 1], dir, first)
  }

  /** The intent that this manager saved last. */
  function OwnLatest(moves: seq<Move>, who: nat, dir: Dir, first: Intent): Intent {
    if moves == [] then first
    else if Saves(moves[|moves| - 1], dir) && moves[|moves| - 1].who == who then moves[|moves| - 1].e.host.intent
    else OwnLatest(moves[..|moves| - 1], who, dir, first)
  }

  /** What this manager did. */
  function LogOf(moves: seq<Move>, who: nat): seq<Event> {
    if moves == [] then []
    else
      var last := moves[|moves| - 1];
      LogOf(moves[..|moves| - 1], who) + if last.Acts? && last.who == who then [last.e] else []
  }

  predicate Lives(moves: seq<Move>, who: nat) {
    forall move | move in moves :: !(move.Begins? && move.who == who)
  }

  lemma {:induction false} AtNext(h: Host, moves: seq<Move>, k: nat)
    requires Feasible(h, moves) && k < |moves|
    ensures Possible(At(h, moves, k), moves[k]) && At(h, moves, k + 1) == After(At(h, moves, k), moves[k])
    decreases k
  {
    hide Possible, After;
    if k == 0 {
      assert At(After(h, moves[0]), moves[1..], 0) == After(h, moves[0]);
    } else {
      AtNext(After(h, moves[0]), moves[1..], k - 1);
    }
  }

  /** The manager is the one it was, after what it did; file and view hold what was saved last, by anyone and by it. */
  ghost predicate Tracks(h: Host, moves: seq<Move>, who: nat, dir: Dir, n: Host)
    requires who in h.managers
  {
    && who in n.managers && Legal(h.managers[who], LogOf(moves, who))
    && Replay(h.managers[who], LogOf(moves, who)) == n.managers[who]
    && SavedAs(n.files, dir) == Latest(moves, dir, SavedAs(h.files, dir))
    && SavedAs(n.managers[who].own.disk, dir) == OwnLatest(moves, who, dir, SavedAs(h.managers[who].own.disk, dir))
  }

  lemma TracksNext(h: Host, moves: seq<Move>, who: nat, dir: Dir, n: Host, move: Move)
    requires who in h.managers && Tracks(h, moves, who, dir, n)
    requires Possible(n, move) && !(move.Begins? && move.who == who)
    ensures Tracks(h, moves + [move], who, dir, After(n, move))
  {
    var longer := moves + [move];
    assert longer[..|longer| - 1] == moves;
    SavesMove(n, move, who, dir);
    var log := LogOf(moves, who);
    if move.Acts? && move.who == who {
      assert (log + [move.e])[..|log + [move.e]| - 1] == log;
    } else {
      assert log + [] == log;
    }
    hide Enabled, Apply, Allowed, SavedAs;
  }

  lemma SavesMove(n: Host, move: Move, who: nat, dir: Dir)
    requires who in n.managers && Possible(n, move) && !(move.Begins? && move.who == who)
    ensures var l := After(n, move);
      && who in l.managers
      && l.managers[who] == (if move.Acts? && move.who == who then Apply(n.managers[who], move.e) else n.managers[who])
      && SavedAs(l.files, dir) == (if Saves(move, dir) then move.e.host.intent else SavedAs(n.files, dir))
      && SavedAs(l.managers[who].own.disk, dir) ==
         (if Saves(move, dir) && move.who == who then move.e.host.intent else SavedAs(n.managers[who].own.disk, dir))
  {
    if move.Acts? { ActKeepsFiles(n, move.who, move.e, who); }
    hide Enabled, Allowed, Apply;
  }

  lemma {:induction false} AlwaysTracks(h: Host, moves: seq<Move>, who: nat, dir: Dir, k: nat)
    requires who in h.managers && Feasible(h, moves) && Lives(moves, who) && k <= |moves|
    ensures Tracks(h, moves[..k], who, dir, At(h, moves, k))
  {
    hide Possible, After, Tracks, Feasible;
    if k == 0 {
      TracksNothing(h, who, dir);
      assert moves[..0] == [];
    } else {
      AlwaysTracks(h, moves, who, dir, k - 1);
      AtNext(h, moves, k - 1);
      assert moves[k - 1] in moves && moves[..k] == moves[..k - 1] + [moves[k - 1]];
      TracksNext(h, moves[..k - 1], who, dir, At(h, moves, k - 1), moves[k - 1]);
    }
  }

  lemma TracksNothing(h: Host, who: nat, dir: Dir)
    requires who in h.managers
    ensures Tracks(h, [], who, dir, h)
  {}

  /** Over every run of the host and every manager that was started over its file: the file agrees with the manager's
      memory, outside setIntent, and holds the new intent, inside it, exactly if the intent that this manager saved
      last is the one that anyone saved last; and exactly then a crash reloads that intent. */
  lemma FileAgreesExactly(h: Host, moves: seq<Move>, who: nat, dir: Dir, now: int)
    requires who in h.managers && Feasible(h, moves) && Lives(moves, who)
    requires Knows(h, who, dir) && h.managers[who].own.config.stateDir == dir
      && Saved(h.managers[who].own) == h.managers[who].record.session.desired
    requires forall e | e in LogOf(moves, who) :: IntentTheorems.StaysIn(e, dir)
    ensures var n, first := At(h, moves, |moves|), SavedAs(h.files, dir);
      who in n.managers &&
      var m, agreed := n.managers[who], OwnLatest(moves, who, dir, first) == Latest(moves, dir, first);
      var promised := Promised(m, LogOf(moves, who));
      && (SavedAs(n.files, dir) == promised <==> agreed)
      && (After(n, Begins(who, m.own.config, now)).managers[who].record.session.desired == promised <==> agreed)
  {
    assert moves[..|moves|] == moves;
    AlwaysTracks(h, moves, who, dir, |moves|);
    var n := At(h, moves, |moves|);
    IntentTheorems.FileAgreesWithMemory(h.managers[who], LogOf(moves, who));
    BeginningKnows(n, who, n.managers[who].own.config, now);
    hide Legal, Replay, After, Feasible, At, LogOf, Latest, OwnLatest;
  }

  /** Handed over and back: the first manager was started before the second one saved that its instance is stopped,
      takes the lock afterwards, and still wants to be connected. */
  lemma Handover() returns (h: Host, moves: seq<Move>)
    ensures Fresh(h) && Feasible(h, moves)
    ensures var last := At(h, moves, |moves|);
      && 0 in last.managers && HoldsLock(last.managers[0].own) && last.managers[0].record.session.desired == Connected
      && SavedAs(last.files, last.managers[0].own.config.stateDir) == Stopped
  {
    var config := Config("state", "program", "root/conf.yaml", 5680, false, false);
    h := Host(map[0 := Started(config, map[], 0), 1 := Started(config, map[], 0)], map[], map[], {}, map[]);
    moves := [Acts(1, Hosts(LockTried("state", true))), Acts(1, Hosts(IntentSaved("state", Stopped))),
              Acts(1, Writes(IntentSet(Stopped))), Acts(1, Hosts(LockReleased)),
                Acts(0, Hosts(LockTried("state", true)))];
    var h1 := After(h, moves[0]);
    var h2 := After(h1, moves[1]);
    var h3 := After(h2, moves[2]);
    var h4 := After(h3, moves[3]);
    var h5 := After(h4, moves[4]);
    var hosts := [h, h1, h2, h3, h4, h5];
    assert Travels(moves, hosts);
    PathFeasible(moves, hosts, 5);
  }
}
