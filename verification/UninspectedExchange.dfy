/** The idle check asks nobody about a live tree that is not complete: a rollback exchanges it under the process of
    another instance (gateway/shared_install.go, gateway/gateway_install.go). */
module UninspectedExchange {
  import opened Basics
  import opened SessionProtocol
  import opened SupervisionTheorems
  import opened SharedHost
  import opened HostTheorems
  import opened GatewayManager
  import Installation
  import ProgramChanges

  /** The manager is alone with one process, and every lock taken is its own. */
  ghost predicate Solo(h: Host, m: Manager, p: Process) {
    && h.managers == map[0 := m] && h.running == {p}
    && (forall dir | dir in h.locks :: m.own.processLock == Some(dir))
    && (forall dir | dir in h.installs :: m.own.installLock == Some(dir))
  }

  lemma SoloPossible(h: Host, m: Manager, p: Process, e: Event)
    requires Solo(h, m, p) && Enabled(m, e) && (e.Hosts? ==> !Contacts(e.host))
    ensures Possible(h, Acts(0, e))
  {}

  lemma SoloAfter(h: Host, m: Manager, p: Process, e: Event)
    requires Solo(h, m, p) && Supervised(m) && Possible(h, Acts(0, e)) && (e.Hosts? ==> !Contacts(e.host))
    ensures Solo(After(h, Acts(0, e)), Apply(m, e), p)
  {
    hide RecordAfter, Watched, PassAfter, BooksAfter, WriteEnabled, PassEnabled, WatchEnabled;
  }

  lemma ContactsCount(m: Manager, e: Event)
    ensures Apply(m, e).books.contacts == m.books.contacts + if e.Hosts? && Contacts(e.host) then 1 else 0
  {}

  lemma {:induction false} ContactsOnlyGrow(origin: Manager, log: seq<Event>)
    requires Legal(origin, log)
    ensures origin.books.contacts <= Replay(origin, log).books.contacts
  {
    hide Enabled, Apply;
    if log != [] {
      var before := log[..|log| - 1];
      ContactsOnlyGrow(origin, before);
      ContactsCount(Replay(origin, before), log[|log| - 1]);
    }
  }

  /** A run of one manager that never met a process is a run of the host, over whatever process. */
  lemma {:induction false} SoloHosts(origin: Manager, log: seq<Event>, p: Process, h: Host) returns (hosts: seq<Host>)
    requires Legal(origin, log) && Supervised(origin) && Solo(h, origin, p)
    requires Replay(origin, log).books.contacts == origin.books.contacts
    ensures Travels(Doing(0, log), hosts) && hosts[0] == h && Solo(hosts[|log|], Replay(origin, log), p)
  {
    hide Enabled, Apply, Solo, Possible, After, Supervised, Contacts;
    if log == [] {
      hosts := [h];
    } else {
      var before, e := log[..|log| - 1], log[|log| - 1];
      var m := Replay(origin, before);
      ContactsOnlyGrow(origin, before);
      ContactsCount(m, e);
      var earlier := SoloHosts(origin, before, p, h);
      AlwaysSupervised(origin, before);
      SoloPossible(earlier[|before|], m, p, e);
      SoloAfter(earlier[|before|], m, p, e);
      var last := After(earlier[|before|], Acts(0, e));
      hosts := earlier + [last];
      PathGrows(before, earlier, e, last);
      assert before + [e] == log;
    }
  }

  lemma PathGrows(before: seq<Event>, hosts: seq<Host>, e: Event, last: Host)
    requires Travels(Doing(0, before), hosts) && MovesTo(hosts[|before|], Acts(0, e), last)
    ensures Travels(Doing(0, before + [e]), hosts + [last])
  {
    hide Possible, After, MovesTo;
    var moves := Doing(0, before + [e]);
    forall i | 0 <= i < |moves| ensures MovesTo((hosts + [last])[i], moves[i], (hosts + [last])[i + 1]) {
      if i < |before| { assert MovesTo(hosts[i], Doing(0, before)[i], hosts[i + 1]); }
    }
  }

  /** A new manager's rollback over a live tree that is not complete, on a host where a process of another instance
      runs in the program directory: it succeeds, and its log is a run of the host in which the trees are exchanged
      while that process runs. */
  method RollbackOverStranger(g: GatewayManager, now: int, ghost p: Process)
    returns (change: ProgramChanges.Change, ghost h: Host, ghost moves: seq<Move>)
    requires g.Quiet() && g.log == [] && g.origin == g.State() == Started(g.own.config, g.own.disk, now)
    requires g.Swappable() && !Installation.Installed(g.program.disk, Installation.Live)
    requires p.instance.program == g.own.config.gatewayDir && p.instance != InstanceOf(g.own.config)
    modifies g, g.program
    ensures change == ProgramChanges.Active && ProgramChanges.Exchanged(old(g.program.disk), g.program.disk)
    ensures 0 < |moves| <= |g.log| && moves == Doing(0, g.log[..|moves|]) && g.log[|moves| - 1] == Hosts(ProgramRenamed)
    ensures Fresh(h) && p in h.running && Feasible(h, moves)
    ensures var last := At(h, moves, |moves| - 1);
      0 in last.managers && p in last.running && !NoStranger(last.running, last.managers[0])
  {
    ghost var origin, config := g.origin, g.own.config;
    change := g.Rollback();
    h := Alone(origin, p);
    moves := StrangerRun(origin, now, g.log, p, config);
  }

  function Alone(origin: Manager, p: Process): Host {
    Host(map[0 := origin], map[], map[], {p}, origin.own.disk)
  }

  lemma StrangerRun(origin: Manager, now: int, log: seq<Event>, p: Process, config: Config) returns (moves: seq<Move>)
    requires origin == Started(config, origin.own.disk, now) && Exchanging(origin, log, 0, Exchange(config, false, 0))
    requires p.instance.program == config.gatewayDir && p.instance != InstanceOf(config)
    ensures 0 < |moves| <= |log| && moves == Doing(0, log[..|moves|]) && log[|moves| - 1] == Hosts(ProgramRenamed)
    ensures Fresh(Alone(origin, p)) && Feasible(Alone(origin, p), moves)
    ensures var last := At(Alone(origin, p), moves, |moves| - 1);
      0 in last.managers && p in last.running && !NoStranger(last.running, last.managers[0])
  {
    hide Started, Enabled, Legal, Replay, Unlooked, Fresh, Feasible, At;
    var before :| before + [Hosts(ProgramRenamed)] <= log && Legal(origin, before)
      && Unlooked(Replay(origin, before), Exchange(config, false, 0));
    moves := StrangerMoves(origin, now, before, p, config);
    assert log[..|moves|] == before + [Hosts(ProgramRenamed)];
  }

  lemma AloneIsFresh(config: Config, disk: map<Dir, Option<Intent>>, now: int, p: Process)
    ensures var origin := Started(config, disk, now);
      Supervised(origin) && Solo(Alone(origin, p), origin, p) && Fresh(Alone(origin, p)) && origin.books.contacts == 0
  {
    StartedSupervised(config, disk, now);
  }

  lemma StrangerMoves(origin: Manager, now: int, before: seq<Event>, p: Process, config: Config)
    returns (moves: seq<Move>)
    requires origin == Started(config, origin.own.disk, now) && Legal(origin, before)
    requires Unlooked(Replay(origin, before), Exchange(config, false, 0))
    requires p.instance.program == config.gatewayDir && p.instance != InstanceOf(config)
    ensures moves == Doing(0, before + [Hosts(ProgramRenamed)]) && Fresh(Alone(origin, p))
      && Feasible(Alone(origin, p), moves)
    ensures var last := At(Alone(origin, p), moves, |before|);
      0 in last.managers && p in last.running && !NoStranger(last.running, last.managers[0])
  {
    AloneIsFresh(config, origin.own.disk, now, p);
    var e, m := Hosts(ProgramRenamed), Replay(origin, before);
    assert Enabled(m, e) && m.own.config == config && m.books.contacts == 0;
    hide Started, Enabled, Apply, Solo, Possible, After, Supervised, Legal, Replay, Unlooked, Fresh, Feasible, At,
         Alone;
    var hosts := SoloHosts(origin, before, p, Alone(origin, p));
    SoloPossible(hosts[|before|], m, p, e);
    SoloShows(hosts[|before|], m, p);
    var last := After(hosts[|before|], Acts(0, e));
    assert MovesTo(hosts[|before|], Acts(0, e), last);
    PathGrows(before, hosts, e, last);
    moves := Doing(0, before + [e]);
    PathFeasible(moves, hosts + [last], |before|);
  }

  lemma SoloShows(h: Host, m: Manager, p: Process)
    requires Solo(h, m, p)
    ensures 0 in h.managers && h.managers[0] == m && p in h.running
  {}
}
