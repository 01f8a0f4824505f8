/** What the configuration transaction takes a gateway to do is what the manager's operations guarantee
    (the Gateway interface of internal/service/server.go, implemented in gateway/). */
module GatewayCalls {
  import opened Basics
  import opened SessionProtocol
  import opened GatewayManager
  import Transaction = ConfigTransaction
  import Installation

  /** A manager as the transaction sees it: configuration, intent, whether it runs, is detached or is down, and
      whether its process answered last. */
  function View(g: GatewayManager): Transaction.Gateway
    reads g`own, g`record
  {
    Seen(g.own.config, g.record)
  }

  function Seen(config: Config, r: Record): Transaction.Gateway {
    Transaction.Gateway(
      config, r.session.desired,
      if r.lifecycle == IsDetached then Transaction.Detached
      else if r.lifecycle in {IsRunning, IsAuthRequired} then Transaction.Running
      else Transaction.Down,
      r.session.processOnline)
  }

  method StartGateway(g: GatewayManager) returns (ok: bool)
    requires g.Quiet()
    modifies g, g.program
    ensures g.Quiet() && (ok ==> Transaction.Alike(View(g), Transaction.Started(old(View(g)))))
  {
    ok := g.Start();
  }

  method StopGateway(g: GatewayManager) returns (ok: bool)
    requires g.Quiet()
    modifies g
    ensures g.Quiet() && (ok ==> Transaction.Alike(View(g), Transaction.StoppedGateway(old(View(g)))))
  {
    ok := g.StopGateway(false);
  }

  method Reconfigure(g: GatewayManager, config: Config, trees: Installation.ProgramTrees) returns (ok: bool)
    requires g.Quiet() && trees.Valid()
    modifies g, trees
    ensures g.Quiet() && trees.Valid()
      && (ok ==> Transaction.Alike(View(g), Transaction.Reconfigured(old(View(g)), config)))
  {
    ok := g.Reconfigure(config, trees);
  }

  /** The undo of a change: `previous` is the view taken before it, and the status it stands for calls a gateway
      running whose process answered last. */
  method Restore(g: GatewayManager, config: Config, trees: Installation.ProgramTrees, previous: Transaction.Gateway)
    returns (ok: bool)
    requires g.Quiet() && trees.Valid()
    modifies g, trees
    ensures g.Quiet() && trees.Valid() && (ok ==> Transaction.Alike(View(g), Transaction.Restored(config, previous)))
  {
    ok := g.RestoreConfiguration(config, trees, Previous(previous.intent, previous.online, previous.mode.Detached?));
  }

  /** Changed and compensated: after a successful undo the manager looks as if it had never been called exactly if
      its status had told where it was. A supervised one that did not answer its last probe is left down, without
      its lock and without a supervisor. */
  method ChangeAndUndo(g: GatewayManager, config: Config, trees: Installation.ProgramTrees,
    original: Installation.ProgramTrees)
    returns (undone: bool)
    requires g.Quiet() && trees.Valid() && original == g.program
    modifies g, trees, original
    ensures g.Quiet()
    ensures undone ==> (Transaction.Alike(View(g), old(View(g))) <==> Transaction.StatusTells(old(View(g))))
    ensures undone && old(View(g)).mode.Running? && !old(View(g)).online ==>
      View(g).mode.Down? && g.own.processLock.None? && Unsupervised(g.watch)
  {
    var before, last := View(g), g.own.config;
    var _ := Reconfigure(g, config, trees);
    undone := g.RestoreConfiguration(last, original, Previous(before.intent, before.online, before.mode.Detached?));
    Transaction.RestoredExactly(last, before);
  }

  /** A manager whose status does not tell: it is started and supervised, then its process does not answer a probe. */
  method SilentlySupervised(g: GatewayManager, outside: Outside)
    requires g.Quiet() && g.Smooth()
    requires outside.stirs == [] && outside.replies != [] && outside.replies[0].Failed?
      && outside.replies[0].kind == Dial && outside.patience > 0
    modifies g, g.program
    ensures g.Quiet() && g.watch.monitorsStarted && HoldsLock(g.own) && !Transaction.StatusTells(View(g))
  {
    var _ := g.Start();
    g.outside := outside;
    var _ := g.EnsureAuthenticated();
  }
}
