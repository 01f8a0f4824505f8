/** What every reader of the published snapshot may rely on, at every moment of every run. */
module SnapshotTheorems {
  import opened Basics
  import opened LoginInitialization
  import opened SessionProtocol

  ghost predicate Consistent(r: Record, clock: int) {
    var s := r.session;
    && (s.ready <==> s.state == Ready)
    && (s.ready <==> r.authenticatedAt.Some?)
    && (r.account != "" ==> s.ready)
    && (s.ready ==> s.connected && s.established && !s.competing && s.sso == SsoValid && !s.stale && s.retryCount == 0)
    && (s.ready ==> s.nextRetryAt.None? && s.generation == r.authenticatedAt)
    && (s.generation.Some? ==> s.generation.value <= clock)
  }

  /** What a verdict rests on: ready only on a complete brokerage answer and a valid single sign-on; and each alarming
      or reassuring word on what the pass has heard. */
  ghost predicate Earned(p: Pass, v: Verdict)
    requires p.Pass?
  {
    && (v.state == Ready ==> v.auth.IsReady() && v.sso == SsoValid && v.error.None?)
    && (v.sso == SsoExpired <==> v.state == LoginRequired)
    && (v.state == LoginRequired ==>
      (p.sso.Some? && p.sso.value.Rejected()) || (p.recheck.Some? && p.recheck.value.Rejected()))
    && (v.sso == SsoValid ==> v.auth.IsReady() || (p.sso.Some? && p.sso.value.Confirmed()))
    && (v.state == Competing ==> v.auth.competing)
    && (v.state == TakeoverRequired ==>
      p.permission == Some(Denied) || (p.retrying == Some(false) && ForceCompeteRefused(v.auth.failure)))
    && (v.tickled <==> p.tickle.Some? && p.tickle.value.Answered?)
  }

  lemma UnauthorizedEarned(p: Pass, auth: BrokerageAuth, tickled: bool)
    requires p.Pass? && p.sso.Some? && p.sso.value.Confirmed()
      && (tickled <==> p.tickle.Some? && p.tickle.value.Answered?)
    ensures AfterUnauthorized(p, auth, tickled).Report? ==> Earned(p, AfterUnauthorized(p, auth, tickled).verdict)
  {}

  lemma FailureEarned(p: Pass, auth: BrokerageAuth, tickled: bool)
    requires p.Pass? && p.sso.Some? && p.sso.value.Confirmed()
      && (tickled <==> p.tickle.Some? && p.tickle.value.Answered?)
    ensures AfterFailure(p, auth, tickled).Report? ==> Earned(p, AfterFailure(p, auth, tickled).verdict)
  {}

  lemma SsoEarned(p: Pass, auth: BrokerageAuth, tickled: bool)
    requires p.Pass? && p.sso.Some? && p.sso.value.Confirmed()
      && (tickled <==> p.tickle.Some? && p.tickle.value.Answered?)
    ensures AfterSso(p, auth, tickled).Report? ==> Earned(p, AfterSso(p, auth, tickled).verdict)
  {
    UnauthorizedEarned(p, auth, tickled);
    UnauthorizedEarned(p, NO_AUTH, tickled);
    if p.init.Some? && p.init.value.Answered? { FailureEarned(p, p.init.value.auth, tickled); }
    if p.outcome.Some? && p.outcome.value.Answered? { FailureEarned(p, p.outcome.value.auth, tickled); }
    hide AfterUnauthorized, AfterFailure;
  }

  lemma StatusEarned(p: Pass, auth: BrokerageAuth, tickled: bool)
    requires p.Pass? && (tickled <==> p.tickle.Some? && p.tickle.value.Answered?)
    ensures AfterStatus(p, auth, tickled).Report? ==> Earned(p, AfterStatus(p, auth, tickled).verdict)
  {
    if p.sso.Some? && p.sso.value.Confirmed() { SsoEarned(p, auth, tickled); }
    hide AfterSso;
  }

  lemma VerdictsAreEarned(p: Pass)
    requires p.Pass? && NextAction(p).Report?
    ensures Earned(p, NextAction(p).verdict)
  {
    if p.tickle.Some? { StatusEarned(p, Brokerage(p), p.tickle.value.Answered?); }
    hide AfterStatus, Brokerage;
  }

  lemma ReadyVerdict(p: Pass)
    requires p.Pass? && NextAction(p).Report? && NextAction(p).verdict.state == Ready
    ensures NextAction(p).verdict.auth.IsReady() && NextAction(p).verdict.sso == SsoValid
      && NextAction(p).verdict.error.None?
  {
    hide NextAction;
    VerdictsAreEarned(p);
  }

  predicate Resetting(e: Write) {
    e.Cleared? || e.LifecycleSet? || e.SessionReset?
  }

  lemma ResetConsistent(m: Manager, e: Write)
    requires Consistent(m.record, m.clock) && WriteEnabled(m, e) && Resetting(e)
    ensures Consistent(Written(m.record, e), Time(m.clock, Writes(e)))
  {}

  predicate Reporting(e: Write) {
    e.LogoutAsked? || e.LogoutReported? || e.RestartChecked? || e.RestartReported?
  }

  lemma ReportConsistent(m: Manager, e: Write)
    requires Consistent(m.record, m.clock) && WriteEnabled(m, e) && Reporting(e)
    ensures Consistent(Written(m.record, e), Time(m.clock, Writes(e)))
  {}

  lemma WriteConsistent(m: Manager, e: Write)
    requires Consistent(m.record, m.clock) && WriteEnabled(m, e)
    ensures Consistent(Written(m.record, e), Time(m.clock, Writes(e)))
  {
    if Resetting(e) { ResetConsistent(m, e); }
    else if Reporting(e) { ReportConsistent(m, e); }
  }

  lemma PassConsistent(m: Manager, e: PassStep)
    requires Consistent(m.record, m.clock) && PassEnabled(m, e)
    ensures Consistent(Passed(m.record, e), Time(m.clock, Passes(e)))
  {
    if e.Observed? && e.verdict.state == Ready { ReadyVerdict(m.pass); }
  }

  lemma StepConsistent(m: Manager, e: Event)
    requires Consistent(m.record, m.clock) && Enabled(m, e)
    ensures Consistent(Apply(m, e).record, Apply(m, e).clock)
  {
    match e
    case Writes(w) => WriteConsistent(m, w);
    case Passes(p) => PassConsistent(m, p);
    case _ =>
  }

  /** At every moment of every run the snapshot is consistent. */
  lemma {:induction false} AlwaysConsistent(origin: Manager, log: seq<Event>)
    requires Legal(origin, log) && Consistent(origin.record, origin.clock)
    ensures Consistent(Replay(origin, log).record, Replay(origin, log).clock)
  {
    if log != [] {
      var before := log[..|log| - 1];
      AlwaysConsistent(origin, before);
      StepConsistent(Replay(origin, before), log[|log| - 1]);
    }
  }

  lemma StartedConsistent(config: Config, disk: map<Dir, Option<Intent>>, now: int)
    ensures Consistent(Started(config, disk, now).record, now)
  {}

  lemma ResetKeepsGeneration(m: Manager, e: Write)
    requires Resetting(e)
    ensures Written(m.record, e).session.generation == m.record.session.generation
    ensures Written(m.record, e).session.ready ==> m.record.session.ready
  {}

  lemma RestartKeepsGeneration(r: Record, now: int)
    ensures CheckRestart(r, now).session.generation == r.session.generation
      && CheckRestart(r, now).session.ready == r.session.ready
  {}

  lemma ReportKeepsGeneration(m: Manager, e: Write)
    requires Reporting(e)
    ensures Written(m.record, e).session.generation == m.record.session.generation
    ensures Written(m.record, e).session.ready ==> m.record.session.ready
  {
    if e.RestartChecked? { RestartKeepsGeneration(m.record, e.now); }
    hide CheckRestart;
  }

  lemma WriteKeepsGeneration(m: Manager, e: Write)
    requires Consistent(m.record, m.clock) && WriteEnabled(m, e)
    ensures Written(m.record, e).session.generation == m.record.session.generation
    ensures Written(m.record, e).session.ready ==> m.record.session.ready
  {
    if Resetting(e) { ResetKeepsGeneration(m, e); }
    else if Reporting(e) { ReportKeepsGeneration(m, e); }
  }

  lemma PassMovesGeneration(m: Manager, e: PassStep)
    requires Consistent(m.record, m.clock) && PassEnabled(m, e)
    ensures var n := Passed(m.record, e);
      if !m.record.session.ready && n.session.ready
      then n.session.generation == Some(Time(m.clock, Passes(e))) == n.authenticatedAt
      else n.session.generation == m.record.session.generation
  {
    if e.Observed? && e.verdict.state == Ready { ReadyVerdict(m.pass); }
  }

  /** The session generation moves exactly when a session that was not ready becomes ready, and then to the
      current time. */
  lemma GenerationEdge(m: Manager, e: Event)
    requires Consistent(m.record, m.clock) && Enabled(m, e)
    ensures var n := Apply(m, e);
      if !m.record.session.ready && n.record.session.ready
      then n.record.session.generation == Some(n.clock) == n.record.authenticatedAt
      else n.record.session.generation == m.record.session.generation
  {
    match e
    case Writes(w) => WriteKeepsGeneration(m, w);
    case Passes(p) => PassMovesGeneration(m, p);
    case _ =>
  }

  /** The generations published by a run, in order. */
  function Generations(origin: Manager, log: seq<Event>): seq<int>
    requires Legal(origin, log)
  {
    if log == [] then []
    else
      var before, after := Replay(origin, log[..|log| - 1]), Replay(origin, log);
      Generations(origin, log[..|log| - 1]) +
      (if !before.record.session.ready && after.record.session.ready then [after.clock] else [])
  }

  ghost predicate Increasing(s: seq<int>) {
    forall i, j | 0 <= i < j < |s| :: s[i] <= s[j]
  }

  /** Over a whole run generations never go back; the published one is the last; and each is the
      instant of its edge, so they are pairwise distinct unless two edges share an instant. */
  lemma {:induction false} GenerationsIncrease(origin: Manager, log: seq<Event>)
    requires Legal(origin, log) && Consistent(origin.record, origin.clock) && origin.record.session.generation.None?
    ensures var g := Generations(origin, log);
      && Increasing(g)
      && (forall i | 0 <= i < |g| :: g[i] <= Replay(origin, log).clock)
      && Replay(origin, log).record.session.generation == (if g == [] then None else Some(g[|g| - 1]))
  {
    hide Enabled, Apply;
    if log != [] {
      var before := log[..|log| - 1];
      GenerationsIncrease(origin, before);
      AlwaysConsistent(origin, before);
      GenerationEdge(Replay(origin, before), log[|log| - 1]);
      TimeFlows(Replay(origin, before), log[|log| - 1]);
    }
  }

  /** Between two edges to ready the clock has moved on. */
  predicate ClockAdvances(origin: Manager, log: seq<Event>)
    requires Legal(origin, log)
  {
    log == [] ||
    (ClockAdvances(origin, log[..|log| - 1]) &&
     (var m, n := Replay(origin, log[..|log| - 1]), Replay(origin, log);
      !m.record.session.ready && n.record.session.ready && m.record.session.generation.Some? ==>
        m.record.session.generation.value < n.clock))
  }

  /** No generation is ever published twice, and they strictly increase, exactly if the clock advances between the edges
      to ready. */
  lemma {:induction false} GenerationsNeverRepeat(origin: Manager, log: seq<Event>)
    requires Legal(origin, log) && Consistent(origin.record, origin.clock) && origin.record.session.generation.None?
    ensures ClockAdvances(origin, log) <==>
            Strictly(Generations(origin, log))
  {
    hide Enabled, Apply, Consistent, Strictly;
    NoneRepeats();
    if log != [] {
      var before := log[..|log| - 1];
      GenerationsNeverRepeat(origin, before);
      GenerationsIncrease(origin, before);
      AlwaysConsistent(origin, before);
      var m, g := Replay(origin, before), Generations(origin, before);
      if !m.record.session.ready && Replay(origin, log).record.session.ready {
        OnlyObservationsMakeReady(m, log[|log| - 1]);
        GenerationEdge(m, log[|log| - 1]);
        Appended(g, Replay(origin, log).clock);
      } else {
        assert Generations(origin, log) == g;
      }
    }
  }

  ghost predicate Strictly(g: seq<int>) {
    forall i, j | 0 <= i < j < |g| :: g[i] < g[j]
  }

  lemma NoneRepeats()
    ensures Strictly([])
  {}

  lemma Appended(g: seq<int>, t: int)
    ensures Strictly(g + [t]) <==> Strictly(g) && (g == [] || g[|g| - 1] < t)
  {
    var more := g + [t];
    if Strictly(more) {
      assert forall i, j | 0 <= i < j < |g| :: more[i] == g[i] && more[j] == g[j];
      if g != [] { assert more[|g| - 1] < more[|g|]; }
    }
  }

  lemma OnlyObservationsMakeReady(m: Manager, e: Event)
    requires Consistent(m.record, m.clock) && Enabled(m, e) && !m.record.session.ready
      && Apply(m, e).record.session.ready
    ensures e.Passes? && e.step.Observed? && Apply(m, e).clock == e.step.now
  {
    match e
    case Writes(w) => WriteKeepsGeneration(m, w);
    case Passes(p) =>
    case _ =>
  }

  lemma TimeFlows(m: Manager, e: Event)
    requires Enabled(m, e)
    ensures m.clock <= Apply(m, e).clock
  {}

  /** How many verdicts a run has published. */
  function Verdicts(log: seq<Event>): nat {
    if log == [] then 0
    else Verdicts(log[..|log| - 1]) + if log[|log| - 1].Passes? && log[|log| - 1].step.Observed? then 1 else 0
  }

  lemma VerdictCounted(m: Manager, e: Event)
    ensures Apply(m, e).books.verdicts == m.books.verdicts + if e.Passes? && e.step.Observed? then 1 else 0
  {}

  /** The books count the verdicts of the log. */
  lemma {:induction false} VerdictsAreCounted(origin: Manager, log: seq<Event>)
    requires Legal(origin, log)
    ensures Replay(origin, log).books.verdicts == origin.books.verdicts + Verdicts(log)
  {
    hide Enabled, Apply;
    if log != [] {
      var before := log[..|log| - 1];
      VerdictsAreCounted(origin, before);
      VerdictCounted(Replay(origin, before), log[|log| - 1]);
    }
  }
}
