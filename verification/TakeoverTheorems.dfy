/** Takeover conservation: how often, when and after what an initialisation may displace another session. */
module TakeoverTheorems {
  import opened Basics
  import opened LoginInitialization
  import opened SessionProtocol
  import opened SupervisionTheorems

  /** A grant whose request has not been sent yet. */
  function Unspent(p: Pass): nat {
    if p.Pass? && p.permission == Some(Granted) && p.init.None? then 1 else 0
  }

  /** The grants since the latest explicit action at `begun`: at most three, all in the two-minute
      window opened within ten minutes of the action, spaced by at least 5 s and then 15 s. */
  ghost predicate Bounded(begun: int, grants: seq<int>) {
    && |grants| <= MAX_ATTEMPTS
    && (forall i | 0 <= i < |grants| :: begun <= grants[i] < begun + 12 * MINUTE)
    && (forall i | 0 <= i < |grants| :: grants[0] <= grants[i] < grants[0] + 2 * MINUTE)
    && (|grants| >= 2 ==> grants[1] - grants[0] >= 5 * SECOND)
    && (|grants| >= 3 ==> grants[2] - grants[1] >= 15 * SECOND)
  }

  ghost predicate Conserved(m: Manager) {
    var b, l, p := m.books, m.record.login, m.pass;
    && b.begun <= m.clock
    && (b.grants != [] ==> b.grants[|b.grants| - 1] <= m.clock)
    && Bounded(b.begun, b.grants)
    && (l.Pending() ==> Accounted(l, b.begun, b.grants) && b.sent + Unspent(p) <= |b.grants|)
    && b.sent + Unspent(p) <= MAX_ATTEMPTS
    && (b.armed ==> b.sent == 0 && p.NoPass?)
    && (p.Pass? && p.permission == Some(NotNeeded) ==> !l.Pending())
    && (p.Pass? && p.compete && p.init.None? ==> b.sent == 0)
    && (l.exhausted ==> l.Pending() && (p.Pass? && p.permission.Some? && p.init.None? ==> p.permission == Some(Denied)))
  }

  /** An initialisation is asked for only in a recovering pass, after this pass's validation said yes. */
  lemma InitializationIsEarned(p: Pass, compete: bool)
    requires Due(p, Ask(Initialize(compete)))
    ensures p.recover && p.sso.Some? && p.sso.value.Confirmed() && p.init.None?
    ensures p.permission == Some(Granted) || p.permission == Some(NotNeeded)
    ensures compete <==> p.compete || p.permission == Some(Granted)
  {}

  lemma PermissionComesOnce(p: Pass)
    requires Due(p, TryPermission)
    ensures p.permission.None?
  {}

  lemma OtherRequestsLeavePermission(p: Pass, request: Request, reply: Reply)
    requires p.Pass?
    ensures var q := Recorded(p, request, reply); q.permission == p.permission && q.compete == p.compete
    ensures !request.Initialize? ==> Recorded(p, request, reply).init == p.init
  {}

  lemma AskConserved(m: Manager, request: Request, reply: Reply, live: bool)
    requires Conserved(m) && Due(m.pass, Ask(request))
    ensures Conserved(Apply(m, Passes(Asked(request, reply, live))))
  {
    OtherRequestsLeavePermission(m.pass, request, reply);
    if request.Initialize? { InitializationIsEarned(m.pass, request.compete); }
  }

  lemma GrantBounded(l: Login, begun: int, grants: seq<int>, now: int)
    requires Bounded(begun, grants) && Accounted(l, begun, grants) && l.Pending() && l.Answer(now) == Granted
      && begun <= now
    requires grants != [] ==> grants[|grants| - 1] <= now
    ensures Bounded(begun, grants + [now])
  {}

  lemma AttemptConserved(m: Manager, now: int)
    requires Conserved(m) && Due(m.pass, TryPermission) && m.clock <= now
    ensures Conserved(Apply(m, Passes(PermissionTried(now))))
  {
    PermissionComesOnce(m.pass);
    if m.record.login.Pending() {
      AttemptAccounted(m.record.login, m.books.begun, m.books.grants, now);
      if m.record.login.Answer(now) == Granted { GrantBounded(m.record.login, m.books.begun, m.books.grants, now); }
    }
    hide NextAction, Bounded, Accounted;
  }

  lemma RestConserved(m: Manager, e: PassStep)
    requires Conserved(m) && PassEnabled(m, e) && !e.Asked? && !e.PermissionTried?
    ensures Conserved(Apply(m, Passes(e)))
  {
    hide NextAction, RetryPlan;
  }

  lemma PassConserved(m: Manager, e: PassStep)
    requires Conserved(m) && PassEnabled(m, e)
    ensures Conserved(Apply(m, Passes(e)))
  {
    hide Conserved, Apply, NextAction;
    match e
    case Asked(request, reply, live) => AskConserved(m, request, reply, live);
    case PermissionTried(now) => AttemptConserved(m, now);
    case _ => RestConserved(m, e);
  }

  lemma WriteConserved(m: Manager, e: Write)
    requires Conserved(m) && m.pass.NoPass? && WriteEnabled(m, e)
    ensures Conserved(Apply(m, Writes(e)))
  {
    hide RestartGranted;
  }

  lemma OutsideConserved(m: Manager, e: Event)
    requires Conserved(m) && Enabled(m, e) && (e.Watches? || e.Hosts?)
    ensures Conserved(Apply(m, e))
  {
    hide Enabled, Watched, Held, Bounded, Accounted;
  }

  lemma StepConserved(m: Manager, e: Event)
    requires Conserved(m) && Enabled(m, e)
    ensures Conserved(Apply(m, e))
  {
    hide Conserved, Apply, PassEnabled, WriteEnabled;
    match e
    case Writes(w) => WriteConserved(m, w);
    case Passes(p) => PassConserved(m, p);
    case _ => OutsideConserved(m, e);
  }

  /** The books balance at every moment of every run; in particular the grants are Bounded. */
  lemma {:induction false} AlwaysConserved(origin: Manager, log: seq<Event>)
    requires Legal(origin, log) && Conserved(origin)
    ensures Conserved(Replay(origin, log))
  {
    if log != [] {
      var before := log[..|log| - 1];
      AlwaysConserved(origin, before);
      StepConserved(Replay(origin, before), log[|log| - 1]);
    }
  }

  lemma StartedConserved(config: Config, disk: map<Dir, Option<Intent>>, now: int)
    ensures Conserved(Started(config, disk, now)) && Untouched(Started(config, disk, now))
  {}

  // ---------- counting over the log alone ----------

  predicate IsTakeover(e: Event) {
    e.Passes? && e.step.Asked? && e.step.request == Initialize(true)
  }

  predicate IsAction(e: Event) {
    e.Writes? && e.write.LoginBegun?
  }

  /** Initialisations with compete=true in the whole log. */
  function Takeovers(log: seq<Event>): nat {
    if log == [] then 0 else Takeovers(log[..|log| - 1]) + if IsTakeover(log[|log| - 1]) then 1 else 0
  }

  /** Those since the latest explicit action. */
  function TakeoversSince(log: seq<Event>): nat {
    if log == [] || IsAction(log[|log| - 1]) then 0
    else TakeoversSince(log[..|log| - 1]) + if IsTakeover(log[|log| - 1]) then 1 else 0
  }

  /** Explicit logins and takeovers in the whole log. */
  function Actions(log: seq<Event>): nat {
    if log == [] then 0 else Actions(log[..|log| - 1]) + if IsAction(log[|log| - 1]) then 1 else 0
  }

  /** No permission was ever created. */
  ghost predicate Untouched(m: Manager) {
    !m.books.armed && m.record.login == NO_LOGIN && m.books.sent == 0
      && (m.pass.Pass? ==> !m.pass.compete && m.pass.permission != Some(Granted))
  }

  lemma StepUntouched(m: Manager, e: Event)
    requires Untouched(m) && Enabled(m, e) && !IsAction(e)
    ensures Untouched(Apply(m, e)) && !IsTakeover(e)
  {
    if e.Passes? && e.step.Asked? {
      OtherRequestsLeavePermission(m.pass, e.step.request, e.step.reply);
      if e.step.request.Initialize? { InitializationIsEarned(m.pass, e.step.request.compete); }
    }
  }

  lemma StepSent(m: Manager, e: Event)
    ensures Apply(m, e).books.sent == if IsAction(e) then 0 else m.books.sent + if IsTakeover(e) then 1 else 0
  {}

  /** In any run: at most three takeovers since the latest action, at most three for each action, none without one. */
  lemma {:induction false} AtMostThreePerAction(origin: Manager, log: seq<Event>)
    requires Legal(origin, log) && Conserved(origin) && Untouched(origin)
    ensures TakeoversSince(log) <= 3
    ensures Takeovers(log) <= 3 * Actions(log)
    ensures TakeoversSince(log) == Replay(origin, log).books.sent
    ensures Actions(log) == 0 ==> Untouched(Replay(origin, log)) && Takeovers(log) == 0
    ensures Actions(log) > 0 ==> Takeovers(log) <= 3 * (Actions(log) - 1) + TakeoversSince(log)
  {
    AlwaysConserved(origin, log);
    if log != [] {
      var before, e := log[..|log| - 1], log[|log| - 1];
      AtMostThreePerAction(origin, before);
      var m := Replay(origin, before);
      StepSent(m, e);
      if Actions(before) == 0 && !IsAction(e) { StepUntouched(m, e); }
    }
  }

  // ---------- exhaustion ----------

  /** What may end an exhausted permission: a new action, an invalidation, or a ready observation. */
  predicate Renews(e: Event) {
    match e
    case Writes(w) => w.LoginBegun? || w.Cleared? || w.LifecycleSet? || w.SessionReset?
    case Passes(p) => p.Observed? && p.verdict.state == Ready
    case Watches(w) => w.SupervisorExited?
    case Hosts(_) => false
  }

  predicate IsInitialization(e: Event) {
    e.Passes? && e.step.Asked? && e.step.request.Initialize?
  }

  lemma StepExhausted(m: Manager, e: Event)
    requires Conserved(m) && m.record.login.exhausted && Enabled(m, e) && !Renews(e)
    ensures Apply(m, e).record.login.exhausted && !IsInitialization(e)
  {
    if IsInitialization(e) { InitializationIsEarned(m.pass, e.step.request.compete); }
    if e.Passes? && e.step.PermissionTried? {
      assert m.record.login.Answer(e.step.now) == Denied;
    }
  }

  /** Once the permission is exhausted, no initialisation of any kind is sent until it is renewed. */
  lemma {:induction false} ExhaustedMeansSilent(m: Manager, log: seq<Event>)
    requires Conserved(m) && m.record.login.exhausted && Legal(m, log)
    requires forall e | e in log :: !Renews(e)
    ensures Replay(m, log).record.login.exhausted
    ensures forall e | e in log :: !IsInitialization(e)
  {
    hide Enabled, Apply, Conserved, IsInitialization, Renews;
    if log != [] {
      var before := log[..|log| - 1];
      ExhaustedMeansSilent(m, before);
      AlwaysConserved(m, before);
      StepExhausted(Replay(m, before), log[|log| - 1]);
      assert log == before + [log[|log| - 1]];
    }
  }

  // ---------- validation first ----------

  predicate Delimits(e: Event) {
    e.Passes? && (e.step.PassStarted? || e.step.Observed? || e.step.PassAbandoned?)
  }

  predicate Validates(e: Event) {
    e.Passes? && e.step.Asked? && e.step.request == SsoValidate && e.step.reply.Confirmed()
  }

  /** Entry `at` is a positive SSO validation and no pass began or ended since. */
  ghost predicate ValidatedAt(log: seq<Event>, at: nat) {
    at < |log| && Validates(log[at]) && forall i | at < i < |log| :: !Delimits(log[i])
  }

  lemma Forgets(m: Manager, e: Event)
    requires Delimits(e)
    ensures var p := Apply(m, e).pass; p.Pass? ==> p.sso.None?
  {}

  lemma StaysValidated(m: Manager, e: Event)
    requires !Validates(e) && !Delimits(e)
    requires var p := Apply(m, e).pass; p.Pass? && p.sso.Some? && p.sso.value.Confirmed()
    ensures m.pass.Pass? && m.pass.sso == Apply(m, e).pass.sso
  {
    hide RecordAfter, Watched, Held, BooksAfter;
  }

  lemma {:induction false} ValidationIsInTheLog(origin: Manager, log: seq<Event>)
    requires Legal(origin, log) && origin.pass.NoPass?
    requires var p := Replay(origin, log).pass; p.Pass? && p.sso.Some? && p.sso.value.Confirmed()
    ensures exists at :: ValidatedAt(log, at)
  {
    hide Enabled, Apply, Validates, Delimits;
    if log != [] {
      var before, e := log[..|log| - 1], log[|log| - 1];
      assert log == before + [e];
      if Validates(e) {
        assert ValidatedAt(log, |log| - 1);
      } else if !Delimits(e) {
        StaysValidated(Replay(origin, before), e);
        ValidationIsInTheLog(origin, before);
        var at :| ValidatedAt(before, at);
        assert ValidatedAt(log, at);
      } else {
        Forgets(Replay(origin, before), e);
      }
    }
  }

  /** Every initialisation, competing or not, follows a true SSO validation in the same pass. */
  lemma InitializationFollowsValidation(origin: Manager, log: seq<Event>, k: nat)
    requires k < |log| && Legal(origin, log[..k + 1]) && origin.pass.NoPass? && IsInitialization(log[k])
    ensures exists at :: ValidatedAt(log[..k], at)
  {
    assert log[..k + 1][..k] == log[..k];
    InitializationIsEarned(Replay(origin, log[..k]).pass, log[k].step.request.compete);
    ValidationIsInTheLog(origin, log[..k]);
  }

  // ---------- when a takeover is sent without a grant ----------

  /** The step drops a pending permission. */
  predicate Drops(m: Manager, e: Event) {
    match e
    case Writes(Cleared(_, _)) => true
    case Writes(LifecycleSet(lifecycle, _, _)) => lifecycle != IsRunning && lifecycle != IsAuthRequired
    case Writes(SessionReset) => true
    case Passes(Observed(v, _, _)) => v.state == Ready
    case Watches(SupervisorExited(g)) => ExitInvalidates(m.watch, m.record.session.desired, g)
    case _ => false
  }

  /** A permission was dropped since the latest explicit action. */
  predicate DroppedSinceAction(origin: Manager, log: seq<Event>)
    requires Legal(origin, log)
  {
    log != [] && !IsAction(log[|log| - 1]) &&
    (DroppedSinceAction(origin, log[..|log| - 1]) || Drops(Replay(origin, log[..|log| - 1]), log[|log| - 1]))
  }

  lemma StepPending(m: Manager, e: Event)
    requires Enabled(m, e)
    ensures Apply(m, e).record.login.Pending() <==> IsAction(e) || (m.record.login.Pending() && !Drops(m, e))
  {
    match e
    case Passes(p) => PassPending(m.record, p);
    case _ => hide RetryPlan, RestartGranted;
  }

  lemma PassPending(r: Record, e: PassStep)
    ensures Passed(r, e).login.Pending() <==> r.login.Pending() && !(e.Observed? && e.verdict.state == Ready)
  {
    hide RetryPlan;
  }

  /** A permission is pending exactly if an explicit action created one and nothing dropped it since. */
  lemma {:induction false} PendingExactly(origin: Manager, log: seq<Event>)
    requires Legal(origin, log) && !origin.record.login.Pending()
    ensures Replay(origin, log).record.login.Pending() <==> Actions(log) > 0 && !DroppedSinceAction(origin, log)
  {
    hide Enabled, Apply, Drops;
    if log != [] {
      var before, e := log[..|log| - 1], log[|log| - 1];
      PendingExactly(origin, before);
      StepPending(Replay(origin, before), e);
    }
  }

  /** A pass told to compete follows an explicit action. */
  lemma {:induction false} CompetingIsAsked(origin: Manager, log: seq<Event>)
    requires Legal(origin, log) && origin.pass.NoPass? && !origin.books.armed
    ensures var m := Replay(origin, log); m.books.armed || (m.pass.Pass? && m.pass.compete) ==> Actions(log) > 0
  {
    if log != [] {
      var before, e := log[..|log| - 1], log[|log| - 1];
      CompetingIsAsked(origin, before);
      var m := Replay(origin, before);
      if e.Passes? && e.step.Asked? && m.pass.Pass? {
        OtherRequestsLeavePermission(m.pass, e.step.request, e.step.reply);
      }
      hide NextAction, RecordAfter, Watched, Held, Recorded;
    }
  }

  /** Entry `at` is the attempt of the pass that is still running. */
  ghost predicate AttemptedAt(log: seq<Event>, at: nat) {
    && at < |log| && log[at].Passes? && log[at].step.PermissionTried?
    && forall i | at < i < |log| :: !Delimits(log[i]) && !(log[i].Passes? && log[i].step.PermissionTried?)
  }

  lemma StaysAttempted(m: Manager, e: Event)
    requires Enabled(m, e) && !Delimits(e)
    ensures var q := Apply(m, e).pass;
      if e.Passes? && e.step.PermissionTried? then
        q.Pass? && m.pass.Pass? && q.compete == m.pass.compete
          && q.permission == Some(m.record.login.Answer(e.step.now))
      else q.Pass? == m.pass.Pass? && (q.Pass? ==> q.permission == m.pass.permission && q.compete == m.pass.compete)
  {
    if e.Passes? && e.step.Asked? { OtherRequestsLeavePermission(m.pass, e.step.request, e.step.reply); }
    hide NextAction, RecordAfter, Watched, Held, Recorded, BooksAfter;
  }

  lemma AttemptForgotten(m: Manager, e: Event)
    requires Delimits(e)
    ensures Apply(m, e).pass.Pass? ==> Apply(m, e).pass.permission.None?
  {}

  /** A pass that knows its permission has its attempt in the log, and knows what the manager answered then. */
  lemma {:induction false} AttemptIsInTheLog(origin: Manager, log: seq<Event>) returns (at: nat)
    requires Legal(origin, log) && origin.pass.NoPass?
    requires var p := Replay(origin, log).pass; p.Pass? && p.permission.Some?
    ensures AttemptedAt(log, at) && Legal(origin, log[..at]) && at < |log|
    ensures var p, m := Replay(origin, log).pass, Replay(origin, log[..at]);
      m.pass.Pass? && m.pass.compete == p.compete && p.permission == Some(m.record.login.Answer(log[at].step.now))
  {
    hide Enabled, Apply, Delimits;
    assert log != [];
    var before, e := log[..|log| - 1], log[|log| - 1];
    assert log == before + [e];
    var m := Replay(origin, before);
    assert !Delimits(e) by {
      if Delimits(e) { AttemptForgotten(m, e); }
    }
    StaysAttempted(m, e);
    if e.Passes? && e.step.PermissionTried? {
      at := |log| - 1;
    } else {
      at := AttemptIsInTheLog(origin, before);
      assert log[..at] == before[..at];
      assert forall i | at < i < |before| :: log[i] == before[i];
    }
  }

  lemma NotNeededExactly(m: Manager, now: int)
    ensures m.record.login.Answer(now) == NotNeeded <==> !m.record.login.Pending()
  {}

  /** A competing initialisation is sent without a grant exactly if, between the explicit action it belongs to and
      the attempt of its pass, something dropped the permission. */
  lemma UngrantedExactly(origin: Manager, log: seq<Event>, reply: Reply, live: bool) returns (at: nat)
    requires Legal(origin, log) && origin.pass.NoPass? && !origin.books.armed && !origin.record.login.Pending()
    requires Enabled(Replay(origin, log), Passes(Asked(Initialize(true), reply, live)))
    ensures AttemptedAt(log, at) && Legal(origin, log[..at])
    ensures Replay(origin, log).pass.permission != Some(Granted) <==>
      Actions(log[..at]) > 0 && DroppedSinceAction(origin, log[..at])
  {
    var p := Replay(origin, log).pass;
    InitializationIsEarned(p, true);
    at := AttemptIsInTheLog(origin, log);
    hide Legal, Replay, DroppedSinceAction, NextAction, Enabled;
    var m := Replay(origin, log[..at]);
    NotNeededExactly(m, log[at].step.now);
    PendingExactly(origin, log[..at]);
    if p.compete { CompetingIsAsked(origin, log[..at]); }
  }

  // ---------- contexts that only the manager can cancel ----------

  /** No context descends from a request: what Upgrade, Rollback, Reconfigure, restarts and the monitor make. */
  predicate Shelters(e: Event) {
    e.Watches? && e.watch.ContextMade? ==> e.watch.shelter
  }

  /** Every takeover sent so far had its own grant, and the one that may follow has its permission. */
  ghost predicate Covered(m: Manager) {
    var b, l, p := m.books, m.record.login, m.pass;
    && b.sent + Unspent(p) <= |b.grants|
    && (b.armed ==> l.Pending() && p.NoPass?)
    && (p.Pass? && p.compete && p.permission.None? ==> l.Pending())
    && (p.Pass? && p.compete ==> p.permission != Some(NotNeeded))
  }

  ghost predicate AllSheltered(w: Watch) {
    (w.ctx.Some? ==> w.ctx.value in w.sheltered) && forall g | g in w.supervisors :: w.supervisors[g] in w.sheltered
  }

  lemma StepSheltered(m: Manager, e: Event)
    requires AllSheltered(m.watch) && Supervised(m) && Enabled(m, e) && Shelters(e)
    ensures AllSheltered(Apply(m, e).watch)
    ensures e.Watches? ==> !Drops(m, e)
  {}

  lemma AskCovered(m: Manager, request: Request, reply: Reply, live: bool)
    requires Covered(m) && Due(m.pass, Ask(request))
    ensures Covered(Apply(m, Passes(Asked(request, reply, live))))
  {
    OtherRequestsLeavePermission(m.pass, request, reply);
    if request.Initialize? { InitializationIsEarned(m.pass, request.compete); }
    hide NextAction;
  }

  lemma AttemptCovered(m: Manager, now: int)
    requires Covered(m) && Due(m.pass, TryPermission)
    ensures Covered(Apply(m, Passes(PermissionTried(now))))
  {
    PermissionComesOnce(m.pass);
    AttemptStaysPending(m.record.login, now);
    hide NextAction;
  }

  lemma AttemptStaysPending(l: Login, now: int)
    ensures l.After(now).Pending() == l.Pending() && (l.Answer(now) == NotNeeded <==> !l.Pending())
  {}

  lemma PassCovered(m: Manager, e: PassStep)
    requires Covered(m) && PassEnabled(m, e)
    ensures Covered(Apply(m, Passes(e)))
  {
    match e
    case Asked(request, reply, live) => AskCovered(m, request, reply, live);
    case PermissionTried(now) => AttemptCovered(m, now);
    case _ => hide NextAction, RetryPlan;
  }

  lemma WriteCovered(m: Manager, e: Write)
    requires Covered(m) && m.pass.NoPass? && WriteEnabled(m, e)
    ensures Covered(Apply(m, Writes(e)))
  {
    hide RestartGranted;
  }

  lemma OutsideCovered(m: Manager, e: Event)
    requires Covered(m) && (e.Watches? || e.Hosts?) && !Drops(m, e)
    ensures Covered(Apply(m, e))
  {
    hide Watched, Held;
  }

  lemma StepCovered(m: Manager, e: Event)
    requires Covered(m) && Enabled(m, e) && (e.Watches? ==> !Drops(m, e))
    ensures Covered(Apply(m, e))
  {
    hide Covered, Apply, PassEnabled, WriteEnabled, WatchEnabled, HostEnabled;
    match e
    case Writes(w) => WriteCovered(m, w);
    case Passes(p) => PassCovered(m, p);
    case _ => OutsideCovered(m, e);
  }

  /** Under such contexts every takeover is granted: at every moment of every run no more were sent than granted. */
  lemma {:induction false} ShelteredTakeoversAreGranted(origin: Manager, log: seq<Event>)
    requires Legal(origin, log) && Supervised(origin) && Covered(origin) && AllSheltered(origin.watch)
    requires forall e | e in log :: Shelters(e)
    ensures var m := Replay(origin, log); Covered(m) && AllSheltered(m.watch) && m.books.sent <= |m.books.grants|
  {
    hide Enabled, Apply, Supervised, AllSheltered, Shelters, Drops;
    if log != [] {
      var before, e := log[..|log| - 1], log[|log| - 1];
      assert log == before + [e];
      ShelteredTakeoversAreGranted(origin, before);
      AlwaysSupervised(origin, before);
      StepSheltered(Replay(origin, before), e);
      StepCovered(Replay(origin, before), e);
    }
  }

  lemma StartedCovered(config: Config, disk: map<Dir, Option<Intent>>, now: int)
    ensures var m := Started(config, disk, now);
      Covered(m) && AllSheltered(m.watch) && m.pass.NoPass? && !m.books.armed && !m.record.login.Pending()
  {}
}
