/** Every sequence of calls on a gateway manager is a run of SessionProtocol, so what the theorem files prove
    of runs holds of the manager itself, whatever the operator, the supervisors and the outside do. */
module ManagerRuns {
  import opened Basics
  import opened SessionProtocol
  import opened GatewayManager
  import Installation
  import SnapshotTheorems
  import TakeoverTheorems
  import SupervisionTheorems
  import IntentTheorems

  datatype Command =
    | Start
    | AutoStart
    | Stop(keep: bool)
    | Shutdown
    | Restart
    | Upgrade
    | Rollback
    | Recover(compete: bool)
    | Resume
    | Logout
    | Authenticate
    | Wake(supervisor: nat)
    | Reconfigure(config: Config, trees: Installation.ProgramTrees)
    | Restore(config: Config, trees: Installation.ProgramTrees, previous: Previous)

  ghost predicate Within(c: Command, sites: set<Installation.ProgramTrees>) {
    (c.Reconfigure? || c.Restore?) ==> c.trees in sites
  }

  ghost predicate Ready(g: GatewayManager, sites: set<Installation.ProgramTrees>)
    reads g, sites
  {
    g.program in sites && g.Quiet() && forall trees | trees in sites :: trees.Valid()
  }

  /** One call after another, in any order, with any arguments, over any installations. */
  method Serve(g: GatewayManager, commands: seq<Command>, sites: set<Installation.ProgramTrees>)
    requires Ready(g, sites) && forall c | c in commands :: Within(c, sites)
    modifies g, sites
    ensures Ready(g, sites) && old(g.log) <= g.log
  {
    for i := 0 to |commands|
      invariant Ready(g, sites) && old(g.log) <= g.log
    {
      assert Within(commands[i], sites);
      Call(g, commands[i], sites);
    }
  }

  method Call(g: GatewayManager, c: Command, sites: set<Installation.ProgramTrees>)
    requires Ready(g, sites) && Within(c, sites)
    modifies g, sites
    ensures Ready(g, sites) && old(g.log) <= g.log
  {
    match c {
      case Reconfigure(config, trees) => var _ := g.Reconfigure(config, trees);
      case Restore(config, trees, previous) => var _ := g.RestoreConfiguration(config, trees, previous);
      case Upgrade => var _ := g.Upgrade();
      case Rollback => var _ := g.Rollback();
      case Wake(supervisor) => if supervisor in g.watch.supervisors { var _ := g.SupervisorPass(supervisor); }
      case _ => CallSimple(g, c);
    }
  }

  method CallSimple(g: GatewayManager, c: Command)
    requires g.Quiet()
    modifies g, g.program
    ensures g.Quiet() && g.program == old(g.program) && old(g.log) <= g.log
  {
    match c {
      case Start => var _ := g.Start();
      case AutoStart => var _ := g.AutoStart();
      case Stop(keep) => var _ := g.StopGateway(keep);
      case Shutdown => var _ := g.Shutdown();
      case Restart => var _ := g.Restart();
      case Recover(compete) => var _ := g.RecoverSession(compete);
      case Resume => var _ := g.ResumeSession();
      case Logout => var _, _ := g.Logout();
      case Authenticate => var _ := g.EnsureAuthenticated();
      case _ =>
    }
  }

  /** A resumed session without a live supervisor: an explicit start finds no program and fails after it made its
      context, the caller's context ends, and the session is resumed under what is left of it. */
  method ResumeAfterFailedStart(g: GatewayManager) returns (resumed: bool)
    requires g.Quiet() && g.Barren()
    modifies g, g.program
    ensures g.Quiet() && resumed && g.record.session.desired == Connected && g.record.session.state == LoginRequired
    ensures g.watch.monitorsStarted && NoLiveSupervisor(g.watch)
  {
    var _ := g.Start();
    g.CancelForeign(g.watch.ctx.value);
    resumed := g.ResumeSession();
  }

  /** A takeover without a grant: between the action and the pass that follows it the starter's context ends, and the
      supervisor that leaves drops the permission. */
  method UngrantedTakeover(g: GatewayManager, outside: Outside)
    requires g.Quiet() && g.Smooth() && outside.stirs == [] && outside.patience >= 5
    requires [NOBODY_IN, NOBODY_IN, CONFIRMED] <= outside.replies
    modifies g, g.program
    ensures g.Operating() && g.books.sent == 1 && g.books.grants == []
  {
    var _ := g.Start();
    g.outside := outside;
    BeginAndDrop(g);
    hide g.Operating;
    g.RefreshSession(Client, None, true, true);
  }

  method BeginAndDrop(g: GatewayManager)
    requires g.Operating() && HoldsLock(g.own) && g.busy.None? && g.record.session.desired == Connected
    requires g.watch.monitorsStarted && g.watch.ctx.Some? && g.watch.ctx.value !in g.watch.sheltered
    modifies g
    ensures g.Operating() && g.record.session.desired == Connected && !g.record.login.Pending()
    ensures g.books.armed && g.books.sent == 0 && g.books.grants == []
    ensures g.outside == old(g.outside).(ticks := g.outside.ticks)
  {
    g.ResetRetries();
    g.BeginLogin(true);
    g.CancelForeign(g.watch.ctx.value);
    g.DeferredExit(g.watch.generation);
  }

  /** What holds of a manager that was started fresh, at every moment of every sequence of calls. */
  lemma AtEveryMoment(g: GatewayManager, config: Config, disk: map<Dir, Option<Intent>>, now: int)
    requires g.Valid() && g.origin == Started(config, disk, now)
    ensures Legal(g.origin, g.log) && Replay(g.origin, g.log) == g.State()
    ensures SnapshotTheorems.Consistent(g.record, g.clock)
    ensures TakeoverTheorems.TakeoversSince(g.log) <= 3
    ensures TakeoverTheorems.Takeovers(g.log) <= 3 * TakeoverTheorems.Actions(g.log)
    ensures forall a, b | Uncancelled(g.watch, a) && Uncancelled(g.watch, b) :: a == b == g.watch.generation
    ensures var times := IntentTheorems.RestartTimes(g.origin, g.log);
      forall i | 0 <= i < |times| - 3 :: times[i + 3] - times[i] >= 15 * MINUTE
  {
    ReachesReplays(g.origin, g.log, g.State());
    SnapshotTheorems.StartedConsistent(config, disk, now);
    SnapshotTheorems.AlwaysConsistent(g.origin, g.log);
    TakeoverTheorems.StartedConserved(config, disk, now);
    TakeoverTheorems.AtMostThreePerAction(g.origin, g.log);
    SupervisionTheorems.StartedSupervised(config, disk, now);
    forall a | Uncancelled(g.watch, a) ensures a == g.watch.generation {
      SupervisionTheorems.OneSupervisor(g.origin, g.log, a);
    }
    IntentTheorems.RestartsAreSpaced(g.origin, g.log);
  }
}
