/** One supervisor, one owner: over every interleaving of operations, passes, cancellations and exits. */
module SupervisionTheorems {
  import opened Basics
  import opened SessionProtocol

  ghost predicate Watchful(w: Watch, own: Holdings) {
    && w.ctx == w.cancel
    && (w.ctx.Some? ==> w.ctx.value < w.contexts)
    && (forall id | id in w.cancelled || id in w.sheltered :: id < w.contexts)
    && (forall g | g in w.supervisors :: g <= w.generation && (g != w.generation ==> w.supervisors[g] in w.cancelled))
    && (w.monitorsStarted <==> w.generation in w.supervisors)
    && (w.monitorsStarted ==> w.ctx == Some(w.supervisors[w.generation]))
    && (Uncancelled(w, w.generation) ==> HoldsLock(own))
    // A sheltered context stays live for as long as the manager keeps its handle.
    && (w.ctx.Some? && w.ctx.value in w.sheltered ==> w.ctx.value !in w.cancelled)
    // A held process lock is always the lock of the current state directory.
    && (own.processLock.Some? ==> HoldsLock(own))
    && (own.installLock.Some? ==> HoldsInstall(own))
    && (own.idle ==> own.installLock.Some?)
    && (own.inspected ==> own.idle)
  }

  ghost predicate Supervised(m: Manager) {
    && Watchful(m.watch, m.own)
    && (m.pass.Pass? ==> m.record.session.desired == Connected)
    && (m.pass.Pass? && m.pass.supervisor.Some? ==>
        m.pass.supervisor.value == m.watch.generation && m.watch.monitorsStarted && HoldsLock(m.own))
  }

  lemma WatchStepWatchful(m: Manager, e: WatchStep)
    requires Watchful(m.watch, m.own) && WatchEnabled(m, e)
    ensures Watchful(Watched(m.watch, e), m.own)
  {}

  lemma HostStepWatchful(w: Watch, own: Holdings, e: HostStep)
    requires Watchful(w, own) && HostEnabled(w, own, e)
    ensures Watchful(w, Held(own, e))
  {}

  lemma RecordingKeepsSupervisor(p: Pass, request: Request, reply: Reply)
    ensures Recorded(p, request, reply).Pass? == p.Pass?
    ensures p.Pass? ==> Recorded(p, request, reply).supervisor == p.supervisor
  {}

  lemma PassStepKeeps(m: Manager, e: PassStep)
    requires PassEnabled(m, e)
    ensures Passed(m.record, e).session.desired == m.record.session.desired
    ensures var q := PassAfter(m.pass, m.record, e);
      q.Pass? ==> if e.PassStarted? then q.supervisor == e.supervisor
        else m.pass.Pass? && q.supervisor == m.pass.supervisor
  {
    if e.Asked? { RecordingKeepsSupervisor(m.pass, e.request, e.reply); }
  }

  lemma StepSupervised(m: Manager, e: Event)
    requires Supervised(m) && Enabled(m, e)
    ensures Supervised(Apply(m, e))
  {
    match e
    case Watches(w) => WatchStepWatchful(m, w);
    case Hosts(h) => HostStepWatchful(m.watch, m.own, h);
    case Passes(p) => PassStepKeeps(m, p);
    case Writes(_) =>
  }

  lemma {:induction false} AlwaysSupervised(origin: Manager, log: seq<Event>)
    requires Legal(origin, log) && Supervised(origin)
    ensures Supervised(Replay(origin, log))
  {
    if log != [] {
      var before := log[..|log| - 1];
      AlwaysSupervised(origin, before);
      StepSupervised(Replay(origin, before), log[|log| - 1]);
    }
  }

  lemma StartedSupervised(config: Config, disk: map<Dir, Option<Intent>>, now: int)
    ensures Supervised(Started(config, disk, now))
  {}

  /** At most one uncancelled supervisor, of the current generation, under the process lock. */
  lemma OneSupervisor(origin: Manager, log: seq<Event>, g: nat)
    requires Legal(origin, log) && Supervised(origin)
    requires Uncancelled(Replay(origin, log).watch, g)
    ensures var m := Replay(origin, log); g == m.watch.generation && HoldsLock(m.own)
    ensures forall other | Uncancelled(Replay(origin, log).watch, other) :: other == g
  {
    AlwaysSupervised(origin, log);
  }

  /** A supervisor's pass runs, from its first request to its last, in the current generation and under
      the process lock, and every pass runs while the operator wants to be connected. */
  lemma PassIsCurrent(origin: Manager, log: seq<Event>)
    requires Legal(origin, log) && Supervised(origin)
    ensures var m := Replay(origin, log); m.pass.Pass? ==>
      && m.record.session.desired == Connected
      && (m.pass.supervisor.Some? ==> m.pass.supervisor.value == m.watch.generation && HoldsLock(m.own))
  {
    AlwaysSupervised(origin, log);
  }

  /** A supervisor started on a context only the manager can cancel is live at once. */
  lemma ReplacementIsLive(m: Manager)
    requires Supervised(m) && Enabled(m, Watches(SupervisorStarted))
    requires m.watch.ctx.value in m.watch.sheltered
    ensures var n := Apply(m, Watches(SupervisorStarted));
      Uncancelled(n.watch, n.watch.generation) && n.watch.generation == m.watch.generation + 1
  {}
}
