/** The operator's intent and the restart budget, over whole runs. */
module IntentTheorems {
  import opened Basics
  import opened RestartBudget
  import opened SessionProtocol

  // ---------- persisted and in-memory intent ----------

  /** The intent whose file is already renamed while memory still holds the old one, if any. */
  function Unsettled(log: seq<Event>): Option<Intent> {
    if log == [] then None
    else match log[|log| - 1]
      case Hosts(IntentSaved(_, intent)) => Some(intent)
      case Writes(IntentSet(_)) => None
      case _ => Unsettled(log[..|log| - 1])
  }

  /** No reconfiguration leaves the state directory. */
  predicate StaysIn(e: Event, dir: Dir) {
    e.Hosts? && e.host.ConfigSet? ==> e.host.config.stateDir == dir
  }

  /** For a fixed state directory, file and memory agree at every moment outside setIntent; inside it
      the file holds the new intent. */
  lemma {:induction false} FileAgreesWithMemory(origin: Manager, log: seq<Event>)
    requires Legal(origin, log) && Saved(origin.own) == origin.record.session.desired
    requires forall e | e in log :: StaysIn(e, origin.own.config.stateDir)
    ensures Replay(origin, log).own.config.stateDir == origin.own.config.stateDir
    ensures var m := Replay(origin,
      log); Saved(m.own) == (if Unsettled(log).Some? then Unsettled(log).value else m.record.session.desired)
  {
    if log != [] {
      var before, e := log[..|log| - 1], log[|log| - 1];
      assert log == before + [e];
      FileAgreesWithMemory(origin, before);
      DesiredChangesOnlyByIntentSet(Replay(origin, before), e);
      FileChangesOnlyOnSave(Replay(origin, before), e);
    }
  }

  lemma WriteKeepsDesired(r: Record, e: Write)
    ensures Written(r, e).session.desired == if e.IntentSet? then e.intent else r.session.desired
  {}

  lemma PassKeepsDesired(r: Record, e: PassStep)
    ensures Passed(r, e).session.desired == r.session.desired
  {}

  lemma DesiredChangesOnlyByIntentSet(m: Manager, e: Event)
    ensures Apply(m, e).record.session.desired == if e.Writes?
      && e.write.IntentSet? then e.write.intent else m.record.session.desired
  {
    match e
    case Writes(w) => WriteKeepsDesired(m.record, w);
    case Passes(p) => PassKeepsDesired(m.record, p);
    case _ =>
  }

  lemma FileChangesOnlyOnSave(m: Manager, e: Event)
    requires Enabled(m, e) && StaysIn(e, m.own.config.stateDir)
    ensures Apply(m, e).own.config.stateDir == m.own.config.stateDir
    ensures !e.Hosts? || !e.host.IntentSaved? ==> Saved(Apply(m, e).own) == Saved(m.own)
  {}

  /** A crash at any moment restarts with the intent held in memory or the one being saved. */
  lemma CrashKeepsIntent(origin: Manager, log: seq<Event>, now: int)
    requires Legal(origin, log) && Saved(origin.own) == origin.record.session.desired
    requires forall e | e in log :: StaysIn(e, origin.own.config.stateDir)
    ensures var m := Replay(origin, log);
      var reloaded := Started(m.own.config, m.own.disk, now).record.session.desired;
      reloaded == m.record.session.desired || Some(reloaded) == Unsettled(log)
  {
    FileAgreesWithMemory(origin, log);
  }

  // ---------- nothing automatic unless connected ----------

  predicate Connects(e: Event) {
    e == Writes(IntentSet(Connected))
  }

  /** A request of a refresh pass, or an automatic restart. */
  predicate Automatic(e: Event) {
    (e.Passes? && (e.step.PassStarted? || e.step.Asked?)) || (e.Writes? && e.write.RestartChecked?)
  }

  /** After a logout or a stop no pass, no request and no restart happens until an operation connects again. */
  lemma {:induction false} SilentUntilConnected(m: Manager, log: seq<Event>)
    requires Legal(m, log) && m.pass.NoPass? && m.record.session.desired != Connected
    requires forall e | e in log :: !Connects(e)
    ensures forall e | e in log :: !Automatic(e)
    ensures Replay(m, log).record.session.desired != Connected && Replay(m, log).pass.NoPass?
  {
    if log != [] {
      var before, e := log[..|log| - 1], log[|log| - 1];
      assert log == before + [e];
      SilentUntilConnected(m, before);
      StepSilent(Replay(m, before), e);
    }
  }

  lemma StepSilent(m: Manager, e: Event)
    requires m.pass.NoPass? && m.record.session.desired != Connected && Enabled(m, e) && !Connects(e)
    ensures !Automatic(e) && Apply(m, e).pass.NoPass? && Apply(m, e).record.session.desired != Connected
  {
    DesiredChangesOnlyByIntentSet(m, e);
  }

  // ---------- restart budget ----------

  /** The times of the automatic restarts granted by a run. */
  function RestartTimes(origin: Manager, log: seq<Event>): seq<int>
    requires Legal(origin, log)
  {
    if log == [] then []
    else
      var before, e := log[..|log| - 1], log[|log| - 1];
      RestartTimes(origin, before) +
      (if Restarts(Replay(origin, before), e) then [e.write.now] else [])
  }

  predicate Restarts(m: Manager, e: Event) {
    e.Writes? && e.write.RestartChecked? && RestartGranted(m.record, e.write.now)
  }

  ghost predicate Budgeted(m: Manager, granted: seq<int>) {
    Remembers(m.record.restartAttempts, granted, m.clock)
  }

  lemma StepBudgeted(m: Manager, e: Event, granted: seq<int>)
    requires Budgeted(m, granted) && Enabled(m, e)
    ensures Budgeted(Apply(m, e), granted + if Restarts(m, e) then [e.write.now] else [])
  {
    hide Remembers, Recent;
    if e.Writes? && e.write.RestartChecked? {
      CheckRemembers(m, e.write.now);
      FilterRemembers(m.record.restartAttempts, granted, m.clock, e.write.now);
      if Restarts(m, e) { GrantRemembers(Recent(m.record.restartAttempts, e.write.now), granted, e.write.now); }
    } else {
      OthersKeepWindow(m, e);
      hide Apply;
      RemembersLater(m.record.restartAttempts, granted, m.clock, Apply(m, e).clock);
      assert !Restarts(m, e) && granted + [] == granted;
    }
  }

  lemma CheckRemembers(m: Manager, now: int)
    requires WriteEnabled(m, RestartChecked(now))
    ensures var n := Apply(m, Writes(RestartChecked(now)));
      && m.clock <= now == n.clock
      && n.record.restartAttempts == Recent(m.record.restartAttempts, now) + if RestartGranted(m.record, now) then [now]
        else []
  {}

  lemma OthersKeepWindow(m: Manager, e: Event)
    requires Enabled(m, e) && !(e.Writes? && e.write.RestartChecked?)
    ensures Apply(m, e).record.restartAttempts == m.record.restartAttempts && m.clock <= Apply(m, e).clock
  {}

  /** Over any run the fourth of any four automatic restarts comes at least fifteen minutes after the first. */
  lemma {:induction false} RestartsAreSpaced(origin: Manager, log: seq<Event>)
    requires Legal(origin, log) && origin.record.restartAttempts == []
    ensures Budgeted(Replay(origin, log), RestartTimes(origin, log))
    ensures var times := RestartTimes(origin, log);
      forall i | 0 <= i < |times| - 3 :: times[i + 3] - times[i] >= 15 * MINUTE
  {
    hide Enabled, Apply, Recent, RestartGranted;
    if log != [] {
      var before, e := log[..|log| - 1], log[|log| - 1];
      RestartsAreSpaced(origin, before);
      StepBudgeted(Replay(origin, before), e, RestartTimes(origin, before));
      assert RestartTimes(origin, before) + [] == RestartTimes(origin, before);
    }
  }

  /** The step ends a series of dial failures: any answered probe, a failure of another kind, or a restart. */
  predicate EndsSeries(m: Manager, e: Event) {
    e == Passes(ProbeNoted(false)) || e == Passes(AliveMarked) || Restarts(m, e)
  }

  /** Dial failures at the end of the run with no answered probe, other failure or restart in between. */
  function TrailingDials(origin: Manager, log: seq<Event>): nat
    requires Legal(origin, log)
  {
    if log == [] then 0
    else
      var before, e := log[..|log| - 1], log[|log| - 1];
      if e == Passes(ProbeNoted(true)) then TrailingDials(origin, before) + 1
      else if EndsSeries(Replay(origin, before), e) then 0
      else TrailingDials(origin, before)
  }

  /** Where the first of them is in the log; its end if there is none. */
  function FirstFailure(origin: Manager, log: seq<Event>): (first: nat)
    requires Legal(origin, log)
    ensures first <= |log|
  {
    if log == [] then 0
    else
      var before, e := log[..|log| - 1], log[|log| - 1];
      if EndsSeries(Replay(origin, before), e) then |log|
      else if TrailingDials(origin, before) > 0 then FirstFailure(origin, before)
      else if e == Passes(ProbeNoted(true)) then |log| - 1
      else |log|
  }

  lemma StepFailures(m: Manager, e: Event)
    requires Enabled(m, e)
    ensures Apply(m, e).record.localFailures ==
      if e == Passes(ProbeNoted(true)) then m.record.localFailures + 1
      else if EndsSeries(m, e) then 0
      else m.record.localFailures
  {}

  // ---------- replies between the failures ----------

  /** Somebody answered a request of a pass. */
  predicate AnswersPass(e: Event) {
    e.Passes? && e.step.Asked? && e.step.reply.Responded()
  }

  /** Somebody answered outside the passes: a logout, or a check whether the process is there. */
  predicate AnswersOutside(e: Event) {
    e.Writes? && ((e.write.LogoutAsked? && e.write.reply.Responded()) || e.write.OnlineSeen?)
  }

  /** A pass that has met nobody so far, or has not noted yet what its tickle met. */
  predicate Vain(p: Pass) {
    p.Pass? ==> (p.tickle.None? ==> !p.noted) && (p.noted ==> p.tickle.Some? && p.tickle.value.Failed?)
  }

  /** Its tickle was answered, which ends the series with its next step. */
  predicate AboutToEnd(p: Pass) {
    p.Pass? && !p.noted && p.tickle.Some? && p.tickle.value.Responded()
  }

  lemma VainAsksTickle(p: Pass, request: Request)
    requires p.Pass? && Vain(p) && Due(p, Ask(request))
    ensures request == Tickle && p.tickle.None? && !p.noted
  {}

  lemma AboutToEndIsNoted(p: Pass)
    requires AboutToEnd(p)
    ensures NextAction(p) == MarkAlive || (NextAction(p) == NoteProbe && p.tickle.value.kind != Dial)
  {}

  lemma VainIsDone(p: Pass)
    requires p.Pass? && Vain(p)
    ensures NextAction(p) != TryPermission && NextAction(p) != CheckRetry
  {}

  /** Within a series a pass can only meet nobody again, or be answered and end the series. */
  lemma VainStep(m: Manager, e: Event)
    requires Enabled(m, e) && Vain(m.pass) && !EndsSeries(m, e)
    ensures Vain(Apply(m, e).pass)
    ensures AnswersPass(e) ==> AboutToEnd(Apply(m, e).pass)
    ensures AboutToEnd(m.pass) ==> Apply(m, e).pass == m.pass
  {
    if m.pass.Pass? {
      VainIsDone(m.pass);
      if AboutToEnd(m.pass) { AboutToEndIsNoted(m.pass); }
      if e.Passes? && e.step.Asked? { VainAsksTickle(m.pass, e.step.request); }
      if e.Passes? && e.step.ProbeNoted? { NotedMeans(m.pass); }
    }
    hide NextAction, RecordAfter, Watched, Held, BooksAfter, WriteEnabled, WatchEnabled, HostEnabled, Restarts;
  }

  lemma NotedMeans(p: Pass)
    requires Due(p, NoteProbe)
    ensures p.tickle.Some? && p.tickle.value.Failed?
  {}

  /** A dial failure begins or continues a series with a pass that met nobody. */
  lemma DialIsVain(m: Manager)
    requires Enabled(m, Passes(ProbeNoted(true)))
    ensures Vain(Apply(m, Passes(ProbeNoted(true))).pass) && !EndsSeries(m, Passes(ProbeNoted(true)))
  {
    NotedMeans(m.pass);
    hide NextAction;
  }

  ghost predicate InSeries(p: Pass, log: seq<Event>, first: nat, dials: nat) {
    && first <= |log| && (dials == 0 ==> first == |log|)
    && (dials > 0 ==> first < |log| && log[first] == Passes(ProbeNoted(true)) && Vain(p))
    && (forall i | first <= i < |log| && AnswersPass(log[i]) :: AboutToEnd(p))
  }

  lemma StepInSeries(m: Manager, log: seq<Event>, first: nat, dials: nat, e: Event)
    requires InSeries(m.pass, log, first, dials) && Enabled(m, e)
    ensures var d := if e == Passes(ProbeNoted(true)) then dials + 1 else if EndsSeries(m, e) then 0 else dials;
      var f := if EndsSeries(m, e) then |log| + 1 else if dials > 0 then first
               else if e == Passes(ProbeNoted(true)) then |log| else |log| + 1;
      InSeries(Apply(m, e).pass, log + [e], f, d)
  {
    hide Enabled, Apply, EndsSeries, AnswersPass, Vain, AboutToEnd;
    if e == Passes(ProbeNoted(true)) { DialIsVain(m); }
    if dials > 0 && !EndsSeries(m, e) { VainStep(m, e); }
    DialAnswersNothing();
  }

  lemma DialAnswersNothing()
    ensures !AnswersPass(Passes(ProbeNoted(true)))
  {}

  /** Since the first failure of a series no request of a pass was answered, but for a tickle about to end it. */
  lemma {:induction false} AlwaysInSeries(origin: Manager, log: seq<Event>)
    requires Legal(origin, log)
    ensures InSeries(Replay(origin, log).pass, log, FirstFailure(origin, log), TrailingDials(origin, log))
  {
    hide InSeries, Enabled, Apply, EndsSeries;
    if log == [] {
      NoSeries(origin.pass);
    } else {
      var before, e := log[..|log| - 1], log[|log| - 1];
      assert before + [e] == log;
      AlwaysInSeries(origin, before);
      StepInSeries(Replay(origin, before), before, FirstFailure(origin, before), TrailingDials(origin, before), e);
    }
  }

  lemma NoSeries(p: Pass)
    ensures InSeries(p, [], 0, 0)
  {}

  /** The failures counted are those of the series. */
  lemma {:induction false} FailuresAreCounted(origin: Manager, log: seq<Event>)
    requires Legal(origin, log) && origin.record.localFailures == 0
    ensures Replay(origin, log).record.localFailures == TrailingDials(origin, log)
  {
    hide Enabled, Apply, EndsSeries;
    if log != [] {
      FailuresAreCounted(origin, log[..|log| - 1]);
      StepFailures(Replay(origin, log[..|log| - 1]), log[|log| - 1]);
    }
  }

  /** Since that dial failure no request of a pass was answered. */
  ghost predicate MetNobody(log: seq<Event>, first: nat) {
    && first < |log| && log[first] == Passes(ProbeNoted(true))
    && forall i | first <= i < |log| :: !AnswersPass(log[i])
  }

  lemma SeriesMetNobody(p: Pass, log: seq<Event>, first: nat, dials: nat)
    requires InSeries(p, log, first, dials) && p.NoPass? && dials > 0
    ensures MetNobody(log, first)
  {
    hide AnswersPass;
  }

  lemma RestartMeans(m: Manager, e: Event)
    requires Enabled(m, e) && Restarts(m, e)
    ensures m.pass.NoPass? && m.record.localFailures >= 3 && m.record.session.desired == Connected
  {}

  /** Every automatic restart is earned by at least three dial failures since the latest answered probe, other failure
      or restart, and granted only when connected. Since the first of them no request of a pass was answered; only a
      logout or a check outside the passes can have met somebody. */
  lemma RestartsAreEarned(origin: Manager, log: seq<Event>, e: Event)
    requires Legal(origin, log) && origin.record.localFailures == 0
    requires Enabled(Replay(origin, log), e) && Restarts(Replay(origin, log), e)
    ensures TrailingDials(origin, log) >= 3 && Replay(origin, log).record.session.desired == Connected
    ensures MetNobody(log, FirstFailure(origin, log))
  {
    var m := Replay(origin, log);
    RestartMeans(m, e);
    FailuresAreCounted(origin, log);
    AlwaysInSeries(origin, log);
    hide Enabled, Restarts, InSeries, FirstFailure, TrailingDials, Legal, Replay, MetNobody;
    SeriesMetNobody(m.pass, log, FirstFailure(origin, log), TrailingDials(origin, log));
  }

  // ---------- a restart across an answered logout ----------

  /** A run in a series of failures whose k-th entry, after the first failure, is an answered logout. */
  ghost predicate Crosses(origin: Manager, log: seq<Event>, m: Manager, k: nat) {
    && Reaches(origin, log, m) && Legal(origin, log) && Replay(origin, log) == m
    && TrailingDials(origin, log) > 0 && FirstFailure(origin, log) <= k < |log| && AnswersOutside(log[k])
  }

  lemma CrossesOn(origin: Manager, log: seq<Event>, m: Manager, k: nat, e: Event)
    requires Crosses(origin, log, m, k) && Enabled(m, e) && !EndsSeries(m, e)
    ensures Crosses(origin, log + [e], Apply(m, e), k)
  {
    hide Enabled, Apply, Reaches, EndsSeries, AnswersOutside;
    var longer := log + [e];
    ReachesNext(origin, log, m, e);
    ReachesReplays(origin, longer, Apply(m, e));
    assert longer[..|longer| - 1] == log && longer[k] == log[k];
  }

  lemma CrossesFrom(origin: Manager, log: seq<Event>, m: Manager, e: Event)
    requires Reaches(origin, log, m) && origin.record.localFailures == 0 && m.record.localFailures > 0
    requires Enabled(m, e) && !EndsSeries(m, e) && AnswersOutside(e)
    ensures Crosses(origin, log + [e], Apply(m, e), |log|)
  {
    hide Enabled, Apply, Reaches, EndsSeries;
    var longer := log + [e];
    ReachesReplays(origin, log, m);
    FailuresAreCounted(origin, log);
    ReachesNext(origin, log, m, e);
    ReachesReplays(origin, longer, Apply(m, e));
    assert longer[..|longer| - 1] == log;
    NotADial(e);
  }

  lemma NotADial(e: Event)
    requires AnswersOutside(e)
    ensures e != Passes(ProbeNoted(true))
  {}

  /** Between passes, connected, in command of the directory. */
  ghost predicate Idle(m: Manager, failures: nat) {
    && m.pass.NoPass? && HoldsLock(m.own) && m.record.session.desired == Connected && m.clock == 0
    && m.record.localFailures == failures && m.record.restartAttempts == []
  }

  function DialPass(): seq<Event> {
    var refused := Failed(Dial, "refused");
    [Passes(PassStarted(None, true, false)), Passes(Asked(Tickle, refused, true)), Passes(ProbeNoted(true)),
     Passes(Observed(Verdict(Unknown, SsoUnknown, NO_AUTH, Some("refused"), false), "", 0))]
  }

  /** The steps of a pass that meets nobody. */
  lemma DialPassRuns(m: Manager, failures: nat) returns (m1: Manager, m2: Manager, m3: Manager, n: Manager)
    requires Idle(m, failures)
    ensures var es := DialPass();
      && Enabled(m, es[0]) && m1 == Apply(m, es[0]) && Enabled(m1, es[1]) && m2 == Apply(m1, es[1])
      && Enabled(m2, es[2]) && m3 == Apply(m2, es[2]) && Enabled(m3, es[3]) && n == Apply(m3, es[3])
    ensures Idle(n, failures + 1)
  {
    hide RetryPlan;
    var es := DialPass();
    m1 := Apply(m, es[0]);
    m2 := Apply(m1, es[1]);
    m3 := Apply(m2, es[2]);
    n := Apply(m3, es[3]);
  }

  lemma DialPassOn(origin: Manager, log: seq<Event>, m: Manager, failures: nat) returns (longer: seq<Event>, n: Manager)
    requires Reaches(origin, log, m) && Idle(m, failures)
    ensures Reaches(origin, longer, n) && Idle(n, failures + 1)
  {
    hide Reaches, Enabled, Apply, Idle;
    var es := DialPass();
    var m1, m2, m3, last := DialPassRuns(m, failures);
    ReachesNext(origin, log, m, es[0]);
    ReachesNext(origin, log + [es[0]], m1, es[1]);
    ReachesNext(origin, log + [es[0]] + [es[1]], m2, es[2]);
    ReachesNext(origin, log + [es[0]] + [es[1]] + [es[2]], m3, es[3]);
    longer, n := log + [es[0]] + [es[1]] + [es[2]] + [es[3]], last;
  }

  lemma DialPassCrosses(origin: Manager, log: seq<Event>, m: Manager, failures: nat, k: nat)
    returns (longer: seq<Event>, n: Manager)
    requires Crosses(origin, log, m, k) && Idle(m, failures)
    ensures Crosses(origin, longer, n, k) && Idle(n, failures + 1)
  {
    var es := DialPass();
    assert forall i, m | 0 <= i < 4 :: !EndsSeries(m, es[i]);
    hide Crosses, Enabled, Apply, Idle, EndsSeries, DialPass;
    var m1, m2, m3, last := DialPassRuns(m, failures);
    CrossesOn(origin, log, m, k, es[0]);
    CrossesOn(origin, log + [es[0]], m1, k, es[1]);
    CrossesOn(origin, log + [es[0]] + [es[1]], m2, k, es[2]);
    CrossesOn(origin, log + [es[0]] + [es[1]] + [es[2]], m3, k, es[3]);
    longer, n := log + [es[0]] + [es[1]] + [es[2]] + [es[3]], last;
  }

  /** The intent of a logout is saved and the session cleared. */
  lemma LoggingOut(origin: Manager, log: seq<Event>, m: Manager, failures: nat)
    returns (longer: seq<Event>, n: Manager)
    requires Reaches(origin, log, m) && Idle(m, failures)
    ensures Reaches(origin, longer, n) && n.pass.NoPass? && HoldsLock(n.own) && n.clock == 0
    ensures n.record.localFailures == failures && n.record.restartAttempts == []
    ensures n.record.session.desired == LoggedOut == Saved(n.own) && n.record.session.state == Mirror(LoggedOut)
  {
    hide Reaches;
    var save, know, clear := Hosts(IntentSaved(m.own.config.stateDir, LoggedOut)), Writes(IntentSet(LoggedOut)),
      Writes(Cleared(Mirror(LoggedOut), 0));
    ReachesNext(origin, log, m, save);
    var m1 := Apply(m, save);
    ReachesNext(origin, log + [save], m1, know);
    var m2 := Apply(m1, know);
    ReachesNext(origin, log + [save] + [know], m2, clear);
    longer, n := log + [save] + [know] + [clear], Apply(m2, clear);
  }

  /** Logging out while the process answers again. */
  lemma LogoutAnswered(origin: Manager, log: seq<Event>, m: Manager, failures: nat)
    returns (longer: seq<Event>, n: Manager, k: nat)
    requires Reaches(origin, log, m) && Idle(m, failures) && failures > 0 && origin.record.localFailures == 0
    ensures Crosses(origin, longer, n, k) && n.pass.NoPass? && HoldsLock(n.own) && n.clock == 0
    ensures n.record.localFailures == failures && n.record.restartAttempts == []
  {
    hide Reaches, Crosses, Idle;
    var ask := Writes(LogoutAsked(Answered(NO_AUTH, Some(true)), true));
    var before, last := LoggingOut(origin, log, m, failures);
    CrossesFrom(origin, before, last, ask);
    longer, n, k := before + [ask], Apply(last, ask), |before|;
  }

  lemma ConnectedAgain(origin: Manager, log: seq<Event>, m: Manager, failures: nat, k: nat)
    returns (longer: seq<Event>, n: Manager)
    requires Crosses(origin, log, m, k) && m.pass.NoPass? && HoldsLock(m.own) && m.clock == 0
    requires m.record.localFailures == failures && m.record.restartAttempts == []
    ensures Crosses(origin, longer, n, k) && Idle(n, failures)
  {
    hide Crosses;
    var save, know := Hosts(IntentSaved(m.own.config.stateDir, Connected)), Writes(IntentSet(Connected));
    CrossesOn(origin, log, m, k, save);
    var m1 := Apply(m, save);
    CrossesOn(origin, log + [save], m1, k, know);
    longer, n := log + [save] + [know], Apply(m1, know);
  }

  /** A restart that is granted although the process answered a logout between the failures it counts. */
  lemma RestartAcrossLogout(config: Config) returns (log: seq<Event>, k: nat)
    ensures var origin := Started(config, map[], 0);
      && Legal(origin, log) && FirstFailure(origin, log) <= k < |log| && AnswersOutside(log[k])
      && Enabled(Replay(origin, log), Writes(RestartChecked(0)))
      && Restarts(Replay(origin, log), Writes(RestartChecked(0)))
  {
    var origin := Started(config, map[], 0);
    var lock := Hosts(LockTried(config.stateDir, true));
    ReachesStart(origin);
    ReachesNext(origin, [], origin, lock);
    var log1, m1 := [] + [lock], Apply(origin, lock);
    assert Idle(m1, 0);
    hide Reaches, Crosses, Idle, Started, Enabled, Apply;
    var log2, m2 := DialPassOn(origin, log1, m1, 0);
    var log3, m3 := DialPassOn(origin, log2, m2, 1);
    var log4, m4, at := LogoutAnswered(origin, log3, m3, 2);
    var log5, m5 := ConnectedAgain(origin, log4, m4, 2, at);
    var log6, m6 := DialPassCrosses(origin, log5, m5, 2, at);
    log, k := log6, at;
    Granted(origin, log, m6, k);
  }

  lemma Granted(origin: Manager, log: seq<Event>, m: Manager, k: nat)
    requires Crosses(origin, log, m, k) && Idle(m, 3)
    ensures Legal(origin, log) && FirstFailure(origin, log) <= k < |log| && AnswersOutside(log[k])
    ensures Enabled(Replay(origin, log), Writes(RestartChecked(0)))
      && Restarts(Replay(origin, log), Writes(RestartChecked(0)))
  {}
}
