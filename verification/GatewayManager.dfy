/** The gateway manager's operations, step by step as the program takes them. Every step that touches the
    manager or the host is logged; Valid says the log is a run of SessionProtocol that ends in the current
    fields, so every theorem about runs holds at every moment of every sequence of calls. */
module GatewayManager {
  import opened Basics
  import opened LoginInitialization
  import opened RestartBudget
  import opened SessionProtocol
  import opened SupervisionTheorems
  import opened PassProgress
  import opened ProgramChanges
  import Installation

  // What the outside answers, in order; when a list runs out nobody replies.
  // `stirs` are the asynchronous steps that find mu free at successive points of an operation.
  // `sightings` are the processes that turn up where the instance's own would be, `pids` those of new ones.
  datatype Outside = Outside(replies: seq<Reply>, ticks: seq<nat>, accounts: seq<string>, stirs: seq<seq<WatchStep>>,
    patience: nat,
                             sightings: seq<Process>, pids: seq<nat>)

  // Whose context an operation runs under: the manager's own, or its caller's request.
  datatype Caller = Own(id: nat) | Client

  // The part of a status that RestoreConfiguration goes by.
  datatype Previous = Previous(desired: Intent, running: bool, detached: bool)

  /** What asynchronous steps may change while an operation holds opMu. */
  ghost predicate Stirred(a: Manager, b: Manager) {
    && b.own == a.own && b.pass == a.pass && b.clock == a.clock && b.books == a.books
    && (b.record == a.record || (a.record.session.desired == Connected && b.record == Lost(a.record)))
    && StirredWatch(a.watch, b.watch)
  }

  ghost predicate StirredWatch(a: Watch, b: Watch) {
    && b.ctx == a.ctx && b.cancel == a.cancel && b.generation == a.generation && b.contexts == a.contexts
    && b.sheltered == a.sheltered && a.cancelled <= b.cancelled
    && (b.monitorsStarted ==> a.monitorsStarted)
    && (forall g | g in b.supervisors :: g in a.supervisors && b.supervisors[g] == a.supervisors[g])
  }

  /** What a refresh pass leaves alone. */
  ghost predicate Kept(a: Manager, b: Manager) {
    && b.own == a.own && b.record.session.desired == a.record.session.desired
    && b.record.restartAttempts == a.record.restartAttempts && b.books.restarts == a.books.restarts
    && b.books.begun == a.books.begun && a.clock <= b.clock
    && b.record.lifecycle in {a.record.lifecycle, IsAuthRequired, IsRunning}
    && StirredWatch(a.watch, b.watch)
  }

  lemma KeptByStir(start: Manager, a: Manager, b: Manager)
    requires Kept(start, a) && Stirred(a, b)
    ensures Kept(start, b)
  {}

  lemma KeptByPass(start: Manager, m: Manager, e: PassStep)
    requires Kept(start, m) && PassEnabled(m, e)
    ensures Kept(start, Apply(m, Passes(e)))
  {}

  lemma StirKeepsContext(a: Watch, b: Watch)
    requires StirredWatch(a, b)
    ensures b.ctx == a.ctx && b.generation == a.generation && a.cancelled <= b.cancelled && b.sheltered == a.sheltered
    ensures (b.monitorsStarted ==> a.monitorsStarted) && (NoLiveSupervisor(a) ==> NoLiveSupervisor(b))
  {}

  lemma Unstirred(a: Watch)
    ensures StirredWatch(a, a)
  {}

  /** No supervisor, and no context but one that only the manager can cancel. */
  ghost predicate Unsupervised(w: Watch) {
    !w.monitorsStarted && (w.ctx.Some? ==> w.ctx.value in w.sheltered)
  }

  function LogoutFailure(reply: Reply): string {
    if reply.Failed? then reply.message else "IBKR did not confirm logout"
  }

  /** What neither the asynchronous steps nor an invalidation touch. */
  predicate SameCourse(a: Record, b: Record) {
    && b.session.desired == a.session.desired && b.lifecycle == a.lifecycle
    && b.session.processOnline == a.session.processOnline && b.intentError == a.intentError
  }

  /** The deferred exit of the current supervisor may have come in between. */
  ghost predicate Shaken(before: Record, now: Record) {
    now == before || (before.session.desired == Connected && now == Lost(before))
  }

  /** setIntent on the record, whether or not the deferred exit of a supervisor came just before it. */
  ghost predicate Intended(before: Record, now: Record, intent: Intent) {
    exists r :: Shaken(before, r) && now == Written(r, IntentSet(intent))
  }

  const MISSING_RESULT := "SSO validation missing boolean RESULT"

  /** The brokerage session still has to be initialised. */
  predicate Uninitialized(auth: BrokerageAuth) {
    !(auth.authenticated && !auth.competing && auth.failure == "")
  }

  // The process is there without a brokerage session, and the single sign-on is confirmed.
  const NOBODY_IN := Answered(NO_AUTH, None)
  const CONFIRMED := Answered(NO_AUTH, Some(true))

  /** One more takeover was sent, and none granted. */
  predicate Ungranted(a: Books, b: Books) {
    b.sent == a.sent + 1 && b.grants == a.grants
  }

  /** Neither a takeover was sent nor one granted. */
  predicate Spent(a: Books, b: Books) {
    b.sent == a.sent && b.grants == a.grants
  }

  /** The request was sent and answered so after the first `from` entries of the log. */
  ghost predicate Heard(log: seq<Event>, from: nat, request: Request, reply: Reply) {
    exists k, live | from <= k < |log| :: log[k] == Passes(Asked(request, reply, live))
  }

  /** The newest entry of the log is the request and its reply. */
  predicate JustAsked(log: seq<Event>, request: Request, reply: Reply) {
    log != [] && log[|log| - 1].Passes? && log[|log| - 1].step.Asked?
    && log[|log| - 1].step.request == request && log[|log| - 1].step.reply == reply
  }

  lemma StaysHeard(earlier: seq<Event>, log: seq<Event>, later: seq<Event>, request: Request, reply: Reply)
    requires earlier < log <= later && JustAsked(log, request, reply)
    ensures Heard(later, |earlier|, request, reply)
  {
    var last := log[|log| - 1];
    assert later[|log| - 1] == Passes(Asked(request, reply, last.step.live));
  }

  /** After the first `from` entries of the log the manager looked whether its permission was active, and found it so or
      not. */
  ghost predicate Looked(origin: Manager, log: seq<Event>, from: nat, active: bool) {
    exists k: nat, now | from <= k < |log| && log[k] == Passes(RetryChecked(now)) && Legal(origin, log[..k]) ::
      Replay(origin, log[..k]).record.login.Active(now) == active
  }

  lemma JustLooked(origin: Manager, log: seq<Event>, m: Manager, from: nat, now: int)
    requires Reaches(origin, log, m) && from <= |log|
    ensures Looked(origin, log + [Passes(RetryChecked(now))], from, m.record.login.Active(now))
  {
    ReachesReplays(origin, log, m);
    var longer := log + [Passes(RetryChecked(now))];
    assert longer[..|log|] == log && longer[|log|] == Passes(RetryChecked(now));
  }

  lemma StaysLooked(origin: Manager, log: seq<Event>, later: seq<Event>, from: nat, active: bool)
    requires Looked(origin, log, from, active) && log <= later
    ensures Looked(origin, later, from, active)
  {
    var k: nat, now :| from <= k < |log| && log[k] == Passes(RetryChecked(now)) && Legal(origin, log[..k])
      && Replay(origin, log[..k]).record.login.Active(now) == active;
    assert later[..k] == log[..k] && later[k] == log[k];
  }

  // How trees were exchanged: under which configuration, whether the idle check had inspected the installation,
  // and how many processes the manager had found, started or terminated so far.
  datatype Exchange = Exchange(config: Config, inspected: bool, contacts: nat)

  /** The manager is about to exchange trees in that way; the contacts matter only without an inspection. */
  predicate Unlooked(m: Manager, how: Exchange) {
    && Enabled(m, Hosts(ProgramRenamed)) && m.own.config == how.config && m.own.inspected == how.inspected
    && (!how.inspected ==> m.books.contacts == how.contacts)
  }

  /** After the first `from` entries of the log trees were exchanged in that way. */
  ghost predicate Exchanging(origin: Manager, log: seq<Event>, from: nat, how: Exchange) {
    exists before: seq<Event> | from <= |before| && before + [Hosts(ProgramRenamed)] <= log && Legal(origin, before) ::
      Unlooked(Replay(origin, before), how)
  }

  lemma NowExchanging(origin: Manager, before: seq<Event>, log: seq<Event>, from: nat, how: Exchange)
    requires from <= |before| < |log| && before <= log && log[|before|] == Hosts(ProgramRenamed)
      && Legal(origin, before)
    requires Unlooked(Replay(origin, before), how)
    ensures Exchanging(origin, log, from, how)
  {
    hide Unlooked, Legal, Replay;
    assert before + [Hosts(ProgramRenamed)] <= log;
  }

  lemma StillExchanging(origin: Manager, log: seq<Event>, later: seq<Event>, from: nat, earlier: nat, how: Exchange,
    contacts: nat)
    requires Exchanging(origin, log, from, how) && log <= later && earlier <= from
      && (!how.inspected ==> contacts == how.contacts)
    ensures Exchanging(origin, later, earlier, how.(contacts := contacts))
  {
    hide Legal, Replay, Enabled;
    var before :| from <= |before| && before + [Hosts(ProgramRenamed)] <= log && Legal(origin, before)
                  && Unlooked(Replay(origin, before), how);
    assert Unlooked(Replay(origin, before), how.(contacts := contacts));
  }

  /** The next download, if there is one. */
  function Offer(downloads: seq<Option<Installation.Release>>): Option<Installation.Release> {
    if downloads == [] then None else downloads[0]
  }

  predicate Offered(downloads: seq<Option<Installation.Release>>) {
    downloads != [] && downloads[0].Some? && Installation.Complete(downloads[0].value)
  }

  class GatewayManager {
    // Guarded by mu: the session record, the supervisor's handles, and the locks and files it owns.
    var record: Record
    var watch: Watch
    var own: Holdings
    var program: Installation.ProgramTrees
    const release: string
    // The supervisor that holds opMu, if one does.
    var busy: Option<nat>
    var clock: int
    var outside: Outside
    // Which steps on the host will fail, in order; after the end of the list none does.
    var faults: seq<bool>
    // What the next downloads bring, verified, or nothing.
    var downloads: seq<Option<Installation.Release>>

    ghost var pass: Pass
    ghost var books: Books
    ghost const origin: Manager
    ghost var log: seq<Event>

    ghost function State(): Manager
      reads `record, `watch, `own, `clock, `pass, `books
    {
      Manager(record, watch, own, pass, clock, books)
    }

    ghost predicate Valid()
      reads `record, `watch, `own, `busy, `clock, `pass, `books, `log
    {
      && Reaches(origin, log, State())
      && Supervised(State())
      && (pass.Pass? && pass.supervisor.Some? ==> pass.supervisor == busy)
    }

    /** An operation holds opMu and no pass is running. */
    ghost predicate Operating()
      reads `record, `watch, `own, `busy, `clock, `pass, `books, `log
    {
      Valid() && pass.NoPass?
    }

    /** Between operations. */
    ghost predicate Quiet()
      reads this, program
    {
      Operating() && own.installLock.None? && busy.None? && program.Valid()
    }

    constructor (config: Config, disk: map<Dir, Option<Intent>>, program: Installation.ProgramTrees, release: string,
      now: int, outside: Outside,
                 faults: seq<bool>, downloads: seq<Option<Installation.Release>>)
      requires program.Valid()
      ensures Quiet() && log == [] && origin == State() == Started(config, disk, now)
      ensures this.program == program && this.release == release
    {
      this.program, this.release, this.clock, this.outside := program, release, now, outside;
      this.faults, this.downloads := faults, downloads;
      var session := SessionSnapshot(Connected, false, SsoUnknown, Unknown, false, None, false, false, false, None,
        None, None, 0, "", false);
      var problem := None;
      // loadIntent: the state label follows an intent other than connected.
      if config.stateDir in disk {
        match disk[config.stateDir] {
          case None =>
            session, problem := session.(desired := Stopped), Some(INTENT_UNREADABLE);
          case Some(intent) =>
            session := session.(desired := intent);
            if intent != Connected { session := session.(state := Mirror(intent)); }
        }
      }
      record := Record(session, "", None, NO_LOGIN, 0, [], IsStopped, if problem.Some? then problem.value else "", now,
        problem);
      watch := Watch(None, None, false, 0, 0, map[], {}, {});
      own := Holdings(config, None, None, false, false, disk);
      busy := None;
      pass, books, log, origin := NoPass, Books(false, now, [], 0, [], 0, 0), [], Started(config, disk, now);
      new;
      StartedSupervised(config, disk, now);
      ReachesStart(origin);
    }

    /** Nothing on the host will fail, and the program is there. */
    ghost predicate Smooth()
      reads `faults, `program, program
    {
      faults == [] && program.Ready()
    }

    /** Nothing on the host will fail, but there is no complete program and none to be had. */
    ghost predicate Barren()
      reads `faults, `downloads, `program, program
    {
      faults == [] && downloads == [] && !Installation.Installed(program.disk, Installation.Live)
    }

    /** There is a live tree, complete or not, and a rollback to exchange it with, and nothing will fail. */
    ghost predicate Swappable()
      reads `faults, `program, program
    {
      faults == [] && program.faults == [] && Installation.Live in program.disk
        && Installation.Installed(program.disk, Installation.Backup)
    }

    // ---------- the outside ----------

    method Now() returns (now: int)
      modifies this`outside
      ensures now >= clock && outside == old(outside).(ticks := outside.ticks)
    {
      now := clock;
      if outside.ticks != [] {
        now := clock + outside.ticks[0];
        outside := outside.(ticks := outside.ticks[1..]);
      }
    }

    method Fault() returns (fails: bool)
      modifies `faults
      ensures old(faults) == [] ==> !fails && faults == []
    {
      fails := faults != [] && faults[0];
      if faults != [] { faults := faults[1..]; }
    }

    method NextReply() returns (reply: Reply)
      modifies this`outside
      ensures outside.patience == old(outside.patience)
      ensures outside.stirs == old(outside).stirs && (old(outside).replies != [] ==>
        reply == old(outside).replies[0] && outside.replies == old(outside).replies[1..])
    {
      reply := Failed(OtherTransport, "no answer");
      if outside.replies != [] {
        reply := outside.replies[0];
        outside := outside.(replies := outside.replies[1..]);
      }
    }

    method NextAccount() returns (name: string)
      modifies this`outside
      ensures outside.patience == old(outside.patience)
    {
      name := "";
      if outside.accounts != [] {
        name := outside.accounts[0];
        outside := outside.(accounts := outside.accounts[1..]);
      }
    }

    method NextDownload() returns (tree: Option<Installation.Release>)
      modifies `downloads
      ensures tree == Offer(old(downloads))
      ensures old(downloads) == [] ==> downloads == []
    {
      tree := None;
      if downloads != [] { tree, downloads := downloads[0], downloads[1..]; }
    }

    /** The context of an operation is still live, so it never went away earlier. */
    predicate Present(caller: Caller)
      reads this
    {
      if caller.Own? then caller.id !in watch.cancelled else outside.patience > 0
    }

    /** Nothing disturbs the coming requests, these are the next replies, and no permission is pending. */
    predicate Undisturbed(replies: seq<Reply>, patience: nat)
      reads `outside, `record
    {
      && outside.stirs == [] && replies <= outside.replies && outside.patience >= patience
      && !record.login.Pending()
    }

    /** Nothing disturbs the next request, and nobody is there to answer it. */
    predicate Unanswered()
      reads `outside
    {
      outside.stirs == [] && outside.replies != [] && outside.replies[0].Failed? && outside.replies[0].kind == Dial
    }

    /** ctx.Err() != nil: an own context once cancelled, a request's after its caller's patience. */
    method Gone(caller: Caller) returns (gone: bool)
      modifies this`outside
      ensures gone ==> !Present(caller) && !old(Present(caller))
      ensures Present(caller) ==> old(Present(caller))
      ensures outside == old(outside).(patience := outside.patience)
      ensures outside.patience + 1 >= old(outside).patience
    {
      match caller {
        case Own(id) => gone := id in watch.cancelled;
        case Client =>
          gone := outside.patience == 0;
          if !gone { outside := outside.(patience := outside.patience - 1); }
      }
    }

    // ---------- the log ----------

    /** Log an event outside a pass whose effect the fields already show. */
    ghost method Note(before: Manager, e: Event)
      requires Reaches(origin, log, before) && Supervised(before) && Enabled(before, e) && !e.Passes?
      requires pass == before.pass && books == before.books
      requires pass.Pass? && pass.supervisor.Some? ==> pass.supervisor == busy
      requires record == RecordAfter(before, e) && clock == Time(before.clock, e)
      requires watch == if e.Watches? then Watched(before.watch, e.watch) else before.watch
      requires own == if e.Hosts? then Held(before.own, e.host) else before.own
      modifies `books, `log
      ensures Valid() && State() == Apply(before, e) && log == old(log) + [e]
    {
      StepSupervised(before, e);
      ReachesNext(origin, log, before, e);
      log := log + [e];
      books := BooksAfter(books, before.record, e);
    }

    // ---------- asynchronous steps ----------

    /** A point at which mu is free: contexts may be cancelled and supervisors may run their deferred exit. */
    method Yield()
      requires Valid()
      modifies `record, `watch, `outside, `books, `log
      ensures Valid() && Stirred(old(State()), State()) && old(log) <= log
      ensures outside.patience == old(outside.patience)
      ensures old(outside).stirs == [] ==> record == old(record) && watch == old(watch) && outside == old(outside)
    {
      if outside.stirs == [] { return; }
      var steps := outside.stirs[0];
      outside := outside.(stirs := outside.stirs[1..]);
      for i := 0 to |steps|
        invariant Valid() && Stirred(old(State()), State()) && old(log) <= log
        invariant outside.patience == old(outside.patience)
      {
        match steps[i] {
          case ContextCancelled(id) =>
            if id < watch.contexts && id !in watch.sheltered { CancelForeign(id); }
          case SupervisorExited(g) =>
            if g in watch.supervisors && (watch.supervisors[g] in watch.cancelled || g != watch.generation)
              && busy != Some(g) {
              DeferredExit(g);
            }
          case _ =>
        }
      }
    }

    method CancelForeign(id: nat)
      requires Valid() && id < watch.contexts && id !in watch.sheltered
      modifies `watch, `books, `log
      ensures Valid() && State() == Apply(old(State()), Watches(ContextCancelled(id))) && old(log) <= log
    {
      ghost var before := State();
      watch := watch.(cancelled := watch.cancelled + {id});
      Note(before, Watches(ContextCancelled(id)));
    }

    /** The deferred exit of a supervisor goroutine; a stale one touches nothing. */
    method DeferredExit(g: nat)
      requires Valid() && g in watch.supervisors && (watch.supervisors[g] in watch.cancelled || g != watch.generation)
      requires busy != Some(g)
      modifies `record, `watch, `books, `log
      ensures Valid() && State() == Apply(old(State()), Watches(SupervisorExited(g))) && old(log) <= log
    {
      ghost var before := State();
      var done := watch.supervisors[g] in watch.cancelled;
      if watch.generation == g {
        watch := watch.(monitorsStarted := false);
        if done && record.session.desired == Connected {
          Invalidate(Unknown);
          record := record.(session := record.session.(stale := true));
        }
      }
      watch := watch.(supervisors := watch.supervisors - {g});
      Note(before, Watches(SupervisorExited(g)));
    }

    /** A free moment between the steps of an operation. */
    method Pause()
      requires Operating()
      modifies `record, `watch, `outside, `books, `log
      ensures Operating() && old(log) <= log && StirredWatch(old(watch), watch)
      ensures Shaken(old(record), record) && SameCourse(old(record), record)
      ensures outside.patience == old(outside.patience)
      ensures books == old(books)
    {
      Yield();
    }

    // ---------- writers of the session record ----------

    /** invalidateSessionLocked: drop the permission, the account and every flag of an observed session. */
    method Invalidate(next: SessionState)
      modifies this`record
      ensures record == Invalidated(old(record), next)
    {
      record := record.(login := NO_LOGIN);
      record := record.(session := record.session.(state := next, sso := SsoUnknown, ready := false));
      record := record.(session := record.session.(connected := false, established := false, competing := false));
      record := record.(session := record.session.(nextRetryAt := None));
      record := record.(account := "", authenticatedAt := None);
    }

    method ClearSession(next: SessionState)
      requires Operating() && next != Ready
      modifies `record, `clock, `outside, `books, `log
      ensures Operating() && log == old(log) + [Writes(Cleared(next, clock))]
      ensures record == Clear(old(record), next, clock) && record.session.state == next
        && record.session.desired == old(record).session.desired
      ensures record.lifecycle == old(record).lifecycle
      ensures record.session.processOnline == (old(record).session.processOnline && next != Mirror(Stopped))
    {
      ghost var before := State();
      var now := Now();
      Invalidate(next);
      record, clock := record.(stateUpdatedAt := now), now;
      record := record.(session := record.session.(error := "", retryCount := 0, stale := false));
      if next == Mirror(Stopped) { record := record.(session := record.session.(processOnline := false)); }
      Note(before, Writes(Cleared(next, now)));
    }

    method SetLifecycle(next: Lifecycle, error: string)
      requires Operating()
      modifies `record, `clock, `outside, `books, `log
      ensures Operating() && log == old(log) + [Writes(LifecycleSet(next, error, clock))]
      ensures record == SessionProtocol.SetLifecycle(old(record), next, error, clock)
      ensures books.contacts == old(books).contacts
      ensures SameCourse(old(record).(lifecycle := next), record)
      ensures next == IsStopped || next == IsDetached ==> record.session.state == Mirror(Stopped)
    {
      ghost var before := State();
      var now := Now();
      WriteLifecycle(next, error, now);
      clock := now;
      Note(before, Writes(LifecycleSet(next, error, now)));
    }

    method WriteLifecycle(next: Lifecycle, error: string, now: int)
      modifies this`record
      ensures record == SessionProtocol.SetLifecycle(old(record), next, error, now)
      ensures SameCourse(old(record).(lifecycle := next), record)
      ensures next == IsStopped || next == IsDetached ==> record.session.state == Mirror(Stopped)
    {
      record := record.(lifecycle := next);
      if next != IsRunning && next != IsAuthRequired {
        Invalidate(Unknown);
        if next == IsStopped || next == IsDetached {
          record := record.(session := record.session.(state := Mirror(Stopped)));
        }
      }
      record := record.(lastError := error, stateUpdatedAt := now);
    }

    method ResetSession()
      requires Operating()
      modifies `record, `books, `log
      ensures Operating() && log == old(log) + [Writes(SessionReset)]
      ensures record == Invalidated(old(record), Unknown) && SameCourse(old(record), record)
    {
      ghost var before := State();
      Invalidate(Unknown);
      Note(before, Writes(SessionReset));
    }

    method ResetRetries()
      requires Operating()
      modifies `record, `books, `log
      ensures Operating() && log == old(log) + [Writes(RetryReset)]
      ensures record == old(record).(session := old(record).session.(retryCount := 0))
    {
      ghost var before := State();
      record := record.(session := record.session.(retryCount := 0));
      Note(before, Writes(RetryReset));
    }

    method SetOffline()
      requires Operating()
      modifies `record, `books, `log
      ensures Operating() && log == old(log) + [Writes(WentOffline)]
      ensures books.contacts == old(books).contacts
      ensures record == old(record).(session := old(record).session.(processOnline := false))
    {
      ghost var before := State();
      record := record.(session := record.session.(processOnline := false));
      Note(before, Writes(WentOffline));
    }

    method MarkRunning()
      requires Operating() && HoldsLock(own)
      modifies `record, `books, `log
      ensures Operating() && log == old(log) + [Writes(RunningMarked)]
      ensures record == old(record).(session := old(record).session.(processOnline := true), lifecycle := IsRunning)
    {
      ghost var before := State();
      record := record.(session := record.session.(processOnline := true));
      record := record.(lifecycle := IsRunning);
      Note(before, Writes(RunningMarked));
    }

    /** The explicit action that creates a takeover permission. */
    method BeginLogin(takeover: bool)
      requires Operating() && HoldsLock(own) && record.session.desired == Connected
      modifies `record, `clock, `outside, `books, `log
      ensures Operating() && log == old(log) + [Writes(LoginBegun(takeover, clock))]
      ensures record == old(record).(login := NewLogin(clock)) && books.armed == takeover
        && books.sent == 0 && books.grants == []
      ensures outside == old(outside).(ticks := outside.ticks)
    {
      ghost var before := State();
      var now := Now();
      record, clock := record.(login := NewLogin(now)), now;
      Note(before, Writes(LoginBegun(takeover, now)));
    }

    /** The file first, renamed into place, and only then memory. */
    method SetIntent(intent: Intent) returns (ok: bool)
      requires Operating() && HoldsLock(own)
      modifies `record, `watch, `own, `outside, `books, `log, `faults
      ensures Operating() && old(log) <= log && StirredWatch(old(watch), watch)
      ensures own == if ok then Held(old(own), IntentSaved(old(own).config.stateDir, intent)) else old(own)
      ensures !ok ==> record == old(record)
      ensures ok ==>
        Intended(old(record), record, intent) && record.session.desired == intent
        && record.lifecycle == old(record).lifecycle
      ensures old(faults) == [] ==> faults == [] && ok
    {
      hide Operating;
      var failed := Fault();
      if failed { return false; }
      SaveIntent(intent);
      Pause();
      KeepIntent(intent);
      ok := true;
    }

    method KeepIntent(intent: Intent)
      requires Operating() && HoldsLock(own) && Saved(own) == intent
      modifies `record, `books, `log
      ensures Operating() && log == old(log) + [Writes(IntentSet(intent))]
        && record == Written(old(record), IntentSet(intent))
    {
      ghost var before := State();
      record := record.(session := record.session.(desired := intent));
      if record.intentError.Some? { record := record.(lastError := ""); }
      record := record.(intentError := None);
      Note(before, Writes(IntentSet(intent)));
    }

    method SaveIntent(intent: Intent)
      requires Operating() && HoldsLock(own)
      modifies `own, `books, `log
      ensures Operating() && log == old(log) + [Hosts(IntentSaved(old(own.config.stateDir), intent))]
      ensures own == Held(old(own), IntentSaved(old(own.config.stateDir), intent))
    {
      ghost var before := State();
      own := own.(disk := own.disk[own.config.stateDir := Some(intent)]);
      Note(before, Hosts(IntentSaved(own.config.stateDir, intent)));
    }

    // ---------- one refresh pass ----------

    /** A pass begun at `start`, when the log was `from`, is still running or has just ended. */
    ghost predicate Since(start: Manager, from: seq<Event>)
      reads `record, `watch, `own, `busy, `clock, `pass, `books, `log
    {
      Valid() && Kept(start, State()) && from <= log && (pass.Pass? ==> books.verdicts == start.books.verdicts)
    }

    /** sessionRequest: mu is free while the request travels; any live answer proves the process is there. */
    method Send(ghost start: Manager, ghost from: seq<Event>, caller: Caller, request: Request) returns (reply: Reply)
      requires Since(start, from) && Due(pass, Ask(request))
      modifies `record, `watch, `clock, `outside, `pass, `books, `log
      ensures Since(start, from) && pass == Recorded(old(pass), request, reply)
      ensures old(log) < log && JustAsked(log, request, reply)
      ensures Present(caller) ==> old(Present(caller))
      ensures reply.Responded() && Present(caller) ==> record.session.processOnline
      ensures !reply.Responded() ==> record.session.processOnline == old(record).session.processOnline
      ensures record.localFailures == old(record).localFailures
      ensures books.sent == old(books).sent + (if request == Initialize(true) then 1 else 0)
        && books.grants == old(books).grants
      ensures old(outside).stirs == [] && old(outside).replies != [] ==>
        reply == old(outside).replies[0] && record.login == old(record.login)
        && outside.stirs == [] && outside.replies == old(outside).replies[1..]
        && outside.patience + 1 >= old(outside).patience
      ensures old(Unanswered()) ==>
        reply == old(outside).replies[0] && outside.stirs == [] && watch == old(watch)
        && record.lifecycle == old(record).lifecycle
    {
      hide Kept, Supervised, NextAction, WatchEnabled, HostEnabled, WriteEnabled, Responded;
      Yield();
      KeptByStir(start, old(State()), State());
      reply := NextReply();
      var gone := Gone(caller);
      ghost var before := State();
      MarkAnswered(reply, !gone);
      NoteStep(start, from, before, Asked(request, reply, !gone));
    }

    /** Any answer that came in time proves that the process is there. */
    method MarkAnswered(reply: Reply, live: bool)
      modifies `record
      ensures record == Responded(old(record), reply, live) && record.localFailures == old(record).localFailures
        && record.lifecycle == old(record).lifecycle && record.login == old(record).login
      ensures record.session.processOnline == (old(record).session.processOnline || (live && reply.Responded()))
    {
      if reply.Responded() && live { record := record.(session := record.session.(processOnline := true)); }
    }

    /** Log a step of the running pass. */
    ghost method NoteStep(start: Manager, from: seq<Event>, before: Manager, e: PassStep)
      requires Reaches(origin, log, before) && Supervised(before) && PassEnabled(before, e) && Kept(start, before)
        && from <= log
      requires pass == before.pass && books == before.books && watch == before.watch && own == before.own
      requires before.books.verdicts == start.books.verdicts
      requires pass.Pass? && pass.supervisor.Some? ==> pass.supervisor == busy
      requires e.PassStarted? && e.supervisor.Some? ==> e.supervisor == busy
      requires record == Passed(before.record, e) && clock == Time(before.clock, Passes(e))
      modifies this`pass, this`books, this`log
      ensures Since(start, from) && pass == PassAfter(before.pass, before.record, e) && log == old(log) + [Passes(e)]
      ensures books == BooksAfter(old(books), before.record, Passes(e))
    {
      hide Kept, Supervised, NextAction;
      KeptByPass(start, before, e);
      StepSupervised(before, Passes(e));
      PassStepKeeps(before, e);
      ReachesNext(origin, log, before, Passes(e));
      log := log + [Passes(e)];
      pass := PassAfter(pass, before.record, e);
      books := BooksAfter(books, before.record, Passes(e));
    }

    /** fetchPortfolioAccount, which may come back empty. */
    method FetchAccount(ghost start: Manager, ghost from: seq<Event>, caller: Caller) returns (name: string)
      requires Since(start, from)
      modifies `record, `watch, `clock, `outside, `pass, `books, `log
      ensures Since(start, from) && pass == old(pass) && old(log) <= log && books == old(books)
    {
      Yield();
      KeptByStir(start, old(State()), State());
      name := NextAccount();
    }

    method NoteProbeFailure(ghost start: Manager, ghost from: seq<Event>, dial: bool)
      requires Since(start, from) && Due(pass, NoteProbe) && (dial <==> pass.tickle.value.kind == Dial)
      modifies `record, `watch, `clock, `outside, `pass, `books, `log
      ensures Since(start, from) && pass == Noted(old(pass)) && outside == old(outside) && watch == old(watch)
      ensures record.localFailures == if dial then old(record).localFailures + 1 else 0
      ensures record.lifecycle == old(record).lifecycle
      ensures record.session == if dial then old(record).session.(processOnline := false) else old(record).session
      ensures books == old(books)
    {
      ghost var before := State();
      if dial {
        record := record.(localFailures := record.localFailures + 1);
        record := record.(session := record.session.(processOnline := false));
      } else {
        record := record.(localFailures := 0);
      }
      NoteStep(start, from, before, ProbeNoted(dial));
    }

    method NoteAlive(ghost start: Manager, ghost from: seq<Event>)
      requires Since(start, from) && Due(pass, MarkAlive)
      modifies `record, `watch, `clock, `outside, `pass, `books, `log
      ensures Since(start, from) && pass == Noted(old(pass)) && outside == old(outside) && watch == old(watch)
      ensures record.localFailures == 0 && record.session.processOnline && books == old(books)
        && record.login == old(record).login
    {
      ghost var before := State();
      record := record.(session := record.session.(processOnline := true));
      record := record.(localFailures := 0);
      NoteStep(start, from, before, AliveMarked);
    }

    /** loginInitialization.attempt, on the permission in place. */
    method AttemptLogin(now: int) returns (answer: Permission)
      modifies this`record
      ensures record == old(record).(login := old(record.login).After(now))
      ensures answer == old(record.login).Answer(now)
    {
      if !record.login.Pending() { return NotNeeded; }
      if record.login.waitingUntil.Some? && !record.login.exhausted {
        if !Before(now, record.login.waitingUntil) {
          record := record.(login := record.login.(exhausted := true));
        } else {
          record := record.(login := record.login.(waitingUntil := None, deadline := Some(now + 2 * MINUTE)));
        }
      }
      if record.login.exhausted || !Before(now, record.login.deadline) || record.login.attempts >= MAX_ATTEMPTS {
        record := record.(login := record.login.(exhausted := true));
        return Denied;
      }
      if Before(now, record.login.nextAttempt) { return Wait; }
      record := record.(login := record.login.(attempts := record.login.attempts + 1));
      record := record.(login := record.login.(nextAttempt := Some(now + RetryDelay(record.login.attempts))));
      answer := Granted;
    }

    method TryLogin(ghost start: Manager, ghost from: seq<Event>) returns (answer: Permission, previousError: string)
      requires Since(start, from) && Due(pass, TryPermission)
      modifies `record, `watch, `clock, `outside, `pass, `books, `log
      ensures Since(start, from) && pass == Permitted(old(pass), answer, previousError) && books.sent == old(books).sent
        && old(log) <= log
      ensures outside.patience == old(outside.patience) && old(watch.cancelled) <= watch.cancelled
      ensures old(outside).stirs == [] && !old(record.login).Pending() ==>
        answer == NotNeeded && books.grants == old(books).grants
    {
      Yield();
      ghost var before := State();
      previousError := record.session.error;
      var now := Now();
      answer := AttemptLogin(now);
      clock := now;
      NoteStep(start, from, before, PermissionTried(now));
    }

    method StillRetrying(ghost start: Manager, ghost from: seq<Event>) returns (active: bool)
      requires Since(start, from) && Due(pass, CheckRetry)
      modifies `record, `watch, `clock, `outside, `pass, `books, `log
      ensures Since(start, from) && pass == Retrying(old(pass), active) && Spent(old(books), books)
        && old(log) <= log && Looked(origin, log, |old(log)|, active)
      ensures outside.patience == old(outside.patience) && old(watch.cancelled) <= watch.cancelled
    {
      hide Looked, Supervised, NextAction, WatchEnabled, HostEnabled, WriteEnabled;
      Yield();
      ghost var before := State();
      var now := Now();
      active := record.login.Active(now);
      clock := now;
      JustLooked(origin, log, before, |old(log)|, now);
      NoteStep(start, from, before, RetryChecked(now));
    }

    /** The newest entry of the log is a published verdict. */
    ghost predicate Published()
      reads this
    {
      log != [] && log[|log| - 1].Passes? && log[|log| - 1].step.Observed?
    }

    /** The verdict a pass has just published. */
    ghost function Told(): Verdict
      requires Published()
      reads this
    {
      log[|log| - 1].step.verdict
    }

    ghost predicate Tells(v: Verdict)
      reads this
    {
      Published() ==> Told() == v
    }

    /** A pass is over: it published its one verdict, or its context was cancelled and it published none. */
    ghost predicate Over(start: Manager, from: seq<Event>, caller: Caller)
      reads this
    {
      && Since(start, from) && pass.NoPass?
      && (Present(caller) ==> Published() && record.session.lastCheckedAt == Some(clock))
      && books.verdicts == start.books.verdicts + if Published() then 1 else 0
    }

    /** The context is gone: stop without a verdict. */
    method Abandon(ghost start: Manager, ghost from: seq<Event>, caller: Caller)
      requires Since(start, from) && pass.Pass? && pass.noted && !Present(caller)
      modifies `pass, `books, `log
      ensures Over(start, from, caller) && !Published() && old(log) <= log && books == old(books)
    {
      NoteStep(start, from, State(), PassAbandoned);
    }

    /** observe: publish the verdict of a pass, unless its context was cancelled meanwhile. */
    method Observe(ghost start: Manager, ghost from: seq<Event>, caller: Caller, v: Verdict, name: string)
      requires Since(start, from) && Due(pass, Report(v)) && (name != "" ==> v.state == Ready)
      modifies `record, `watch, `clock, `outside, `pass, `books, `log
      ensures Over(start, from, caller) && Tells(v) && old(log) <= log && Spent(old(books), books)
      ensures old(outside).stirs == [] && v.state == Unknown && !old(record).session.processOnline ==>
        watch == old(watch) && record.lifecycle == old(record).lifecycle && !record.session.processOnline
    {
      var gone := Gone(caller);
      if gone {
        Abandon(start, from, caller);
        return;
      }
      Yield();
      Publish(start, from, v, name);
    }

    method Publish(ghost start: Manager, ghost from: seq<Event>, v: Verdict, name: string)
      requires Since(start, from) && Due(pass, Report(v)) && (name != "" ==> v.state == Ready)
      modifies `record, `watch, `clock, `outside, `pass, `books, `log
      ensures Since(start, from) && pass.NoPass? && Published() && Told() == v
      ensures record.session.lastCheckedAt == Some(clock) && old(log) <= log
      ensures books == old(books).(verdicts := start.books.verdicts + 1)
      ensures watch == old(watch)
      ensures v.state == Unknown && !old(record).session.processOnline ==>
        record.lifecycle == old(record).lifecycle && !record.session.processOnline
    {
      hide Kept, Supervised, NextAction, SessionProtocol.Observe;
      ghost var before := State();
      var now := Now();
      WriteVerdict(v, name, now);
      clock := now;
      NoteStep(start, from, before, Observed(v, name, now));
    }

    method WriteVerdict(v: Verdict, name: string, now: int)
      modifies this`record
      ensures record == SessionProtocol.Observe(old(record), v, if v.state == Ready then name else "", now)
      ensures record.session.lastCheckedAt == Some(now)
      ensures v.state == Unknown && !old(record).session.processOnline ==>
        record.lifecycle == old(record).lifecycle && !record.session.processOnline
    {
      var previous, wasReady := record.session.state, record.session.ready;
      WriteAnswer(v, now);
      if v.state == Ready {
        record := record.(login := NO_LOGIN);
        if !wasReady {
          record := record.(session := record.session.(generation := Some(now)), authenticatedAt := Some(now));
        }
        record := record.(account := name, session := record.session.(retryCount := 0));
      } else {
        record := record.(account := "", authenticatedAt := None);
        ScheduleRetry(v.state, now);
      }
      if v.state == LoginRequired {
        record := record.(lifecycle := IsAuthRequired);
      } else if record.session.processOnline {
        record := record.(lifecycle := IsRunning);
      }
      if previous != v.state { record := record.(stateUpdatedAt := now); }
    }

    method WriteAnswer(v: Verdict, now: int)
      modifies this`record
      ensures record == old(record).(session := old(record).session.(
        state := v.state, sso := v.sso, ready := v.state == Ready,
        connected := v.auth.connected, established := v.auth.established, competing := v.auth.competing,
        lastCheckedAt := Some(now), lastTickleAt := if v.tickled then Some(now) else old(record).session.lastTickleAt,
        stale := v.error.Some?, error := if v.error.Some? then v.error.value else "", nextRetryAt := None))
    {
      var session := record.session.(state := v.state, sso := v.sso, ready := v.state == Ready);
      session := session.(connected := v.auth.connected, established := v.auth.established,
        competing := v.auth.competing);
      session := session.(lastCheckedAt := Some(now), stale := v.error.Some?, error := "", nextRetryAt := None);
      if v.tickled { session := session.(lastTickleAt := Some(now)); }
      if v.error.Some? { session := session.(error := v.error.value); }
      record := record.(session := session);
    }

    method ScheduleRetry(next: SessionState, now: int)
      requires record.session.nextRetryAt.None?
      modifies this`record
      ensures var plan := RetryPlan(old(record.login), next, old(record.session.retryCount), now);
        record == old(record).(session := old(record.session).(retryCount := plan.0, nextRetryAt := plan.1))
    {
      var count, at := 0, None;
      if next == Recovering || next == Unknown || next == Initializing {
        count := record.session.retryCount + 1;
        at := Some(now + RetryDelay(count));
      }
      if record.login.Pending() {
        count, at := record.login.attempts, None;
        if record.login.Active(now) {
          at := Some(if Before(now, record.login.nextAttempt) then record.login.nextAttempt.value
            else now + 5 * SECOND);
        }
      }
      record := record.(session := record.session.(retryCount := count, nextRetryAt := at));
    }

    method StartPass(ghost start: Manager, ghost from: seq<Event>, supervisor: Option<nat>, recover: bool,
      compete: bool) returns (pending: bool)
      requires Since(start, from) && pass.NoPass? && record.session.desired == Connected
      requires books.verdicts == start.books.verdicts
      requires compete ==> books.armed
      requires supervisor.Some? ==> supervisor == busy && MayPass(State(), supervisor.value)
      modifies `record, `watch, `clock, `outside, `pass, `books, `log
      ensures Since(start, from) && pass == NewPass(supervisor, recover, compete, pending)
      ensures old(log) < log && outside == old(outside) && watch == old(watch) && record == old(record)
        && Spent(old(books), books)
    {
      ghost var before := State();
      pending := record.login.Pending();
      NoteStep(start, from, before, PassStarted(supervisor, recover, compete));
    }

    /** refreshSession: probe, ask for the brokerage status, validate, and only then initialise. */
    method RefreshSession(caller: Caller, supervisor: Option<nat>, recover: bool, compete: bool)
      requires Operating() && (compete ==> books.armed)
      requires supervisor.Some? ==> supervisor == busy && MayPass(State(), supervisor.value)
      modifies `record, `watch, `clock, `outside, `pass, `books, `log
      ensures Operating() && Kept(old(State()), State()) && old(log) <= log
      ensures old(record.session.desired) != Connected ==> State() == old(State()) && log == old(log)
      ensures old(record.session.desired) == Connected && Present(caller) ==>
        old(log) < log && Published() && record.session.lastCheckedAt == Some(clock)
      ensures old(record.session.desired) == Connected && old(Present(caller)) ==> old(log) < log
      ensures old(log) < log ==> books.verdicts == old(books).verdicts + if Published() then 1 else 0
      ensures old(log) == log ==> books.verdicts == old(books).verdicts
      ensures caller.Own? && watch.ctx == Some(caller.id) && caller.id in watch.sheltered ==> Present(caller)
      ensures old(Undisturbed([NOBODY_IN, NOBODY_IN, CONFIRMED], 5)) && recover && compete && caller.Client? ==>
        record.session.desired == Connected ==> Ungranted(old(books), books)
      ensures old(Unanswered()) && old(outside).patience > 0 && caller.Client? ==>
        record.session.desired == Connected ==>
        watch == old(watch) && record.lifecycle == old(record).lifecycle && !record.session.processOnline
    {
      ghost var start, from := State(), log;
      if record.session.desired != Connected { return; }
      var gone := Gone(caller);
      if gone { return; }
      var pending := StartPass(start, from, supervisor, recover, compete);
      ghost var longer := log;
      Probe(start, longer, caller, recover, compete, pending);
    }

    method Probe(ghost start: Manager, ghost from: seq<Event>, caller: Caller, recover: bool, compete: bool,
      pending: bool)
      requires Since(start, from) && Fresh(pass, recover, compete, pending)
      modifies `record, `watch, `clock, `outside, `pass, `books, `log
      ensures Over(start, from, caller)
      ensures old(Undisturbed([NOBODY_IN, NOBODY_IN, CONFIRMED], 4)) && recover && compete && caller.Client? ==>
        Ungranted(old(books), books)
      ensures old(Unanswered()) ==>
        watch == old(watch) && record.lifecycle == old(record).lifecycle && !record.session.processOnline
    {
      hide Since, Over, Published, Tells;
      var tickle := Send(start, from, caller, Tickle);
      if tickle.Failed? {
        NoteProbeFailure(start, from, tickle.kind == Dial);
        Observe(start, from, caller, Verdict(Unknown, SsoUnknown, NO_AUTH, Some(tickle.message), false), "");
        return;
      }
      NoteAlive(start, from);
      ReadStatus(start, from, caller, recover, compete, pending, tickle);
    }

    /** Somebody answered: read the brokerage status, and go on only if it is not ready. */
    method ReadStatus(ghost start: Manager, ghost from: seq<Event>, caller: Caller, recover: bool, compete: bool,
      pending: bool, tickle: Reply)
      requires Since(start, from) && Alive(pass, recover, compete, pending, tickle)
      modifies `record, `watch, `clock, `outside, `pass, `books, `log
      ensures Over(start, from, caller)
      ensures old(Undisturbed([NOBODY_IN, CONFIRMED], 3)) && tickle == NOBODY_IN ==>
        recover && compete && caller.Client? ==>
        Ungranted(old(books), books)
    {
      hide Since, Over, Published, Tells;
      var auth, tickled := tickle.Auth(), tickle.Answered?;
      if !auth.IsReady() && tickled {
        var status := Send(start, from, caller, AuthStatus);
        if status.Answered? {
          auth := status.auth;
        } else if !status.Unauthorized? {
          Observe(start, from, caller, Verdict(Unknown, SsoUnknown, auth, Some(status.message), tickled), "");
          return;
        }
      }
      JudgeStatus(start, from, caller, recover, compete, pending, auth, tickled);
    }

    method JudgeStatus(ghost start: Manager, ghost from: seq<Event>, caller: Caller, recover: bool, compete: bool,
      pending: bool, auth: BrokerageAuth, tickled: bool)
      requires Since(start, from) && Known(pass, recover, compete, pending, auth, tickled)
      modifies `record, `watch, `clock, `outside, `pass, `books, `log
      ensures Over(start, from, caller)
      ensures recover && auth == NO_AUTH && compete && caller.Client? && old(Undisturbed([CONFIRMED], 2)) ==>
        Ungranted(old(books), books)
    {
      hide Since, Over, Published, Tells;
      if auth.IsReady() {
        var name := FetchAccount(start, from, caller);
        Observe(start, from, caller, Verdict(Ready, SsoValid, auth, None, tickled), name);
        return;
      }
      if auth.competing && !compete && !pending {
        Observe(start, from, caller, Verdict(Competing, SsoUnknown, auth, None, tickled), "");
        return;
      }
      ghost var _ := ValidateSso(start, from, caller, recover, compete, auth, tickled);
    }

    /** The second half of a pass: what the validation says, and an initialisation only if one is wanted. */
    method ValidateSso(ghost start: Manager, ghost from: seq<Event>, caller: Caller, recover: bool, compete: bool,
      auth: BrokerageAuth, tickled: bool)
      returns (ghost sso: Reply)
      requires Since(start, from) && Unready(pass, recover, compete, auth, tickled)
      requires pass.sso.None? && pass.permission.None? && pass.init.None? && Undecided(pass)
      modifies `record, `watch, `clock, `outside, `pass, `books, `log
      ensures Over(start, from, caller) && old(log) <= log && Heard(log, |old(log)|, SsoValidate, sso)
      ensures sso.Rejected() ==> Tells(Verdict(LoginRequired, SsoExpired, auth, None, tickled))
      ensures !sso.Rejected() && !sso.Confirmed() ==>
        Tells(Verdict(Unknown, SsoUnknown, auth, Some(if sso.Failed? then sso.message else MISSING_RESULT), tickled))
      ensures sso.Confirmed() && !(recover && Uninitialized(auth)) ==>
        Tells(Verdict(Initializing, SsoValid, auth, None, tickled))
      ensures recover && Uninitialized(auth) && compete && caller.Client? && old(Undisturbed([CONFIRMED], 2)) ==>
        Ungranted(old(books), books)
      ensures !(sso.Confirmed() && recover && Uninitialized(auth)) ==> Spent(old(books), books)
    {
      hide Since, Over, JustAsked, Heard, Published, Tells;
      var validation := Send(start, from, caller, SsoValidate);
      sso := validation;
      ghost var heard := log;
      GoOn(start, from, caller, recover, compete, validation, auth, tickled);
      StaysHeard(old(log), heard, log, SsoValidate, sso);
    }

    method GoOn(ghost start: Manager, ghost from: seq<Event>, caller: Caller, recover: bool, compete: bool, sso: Reply,
      auth: BrokerageAuth, tickled: bool)
      requires Since(start, from) && Unready(pass, recover, compete, auth, tickled) && pass.sso == Some(sso)
      requires pass.permission.None? && pass.init.None? && Undecided(pass)
      modifies `record, `watch, `clock, `outside, `pass, `books, `log
      ensures Over(start, from, caller) && old(log) <= log
      ensures sso.Rejected() ==> Tells(Verdict(LoginRequired, SsoExpired, auth, None, tickled))
      ensures !sso.Rejected() && !sso.Confirmed() ==>
        Tells(Verdict(Unknown, SsoUnknown, auth, Some(if sso.Failed? then sso.message else MISSING_RESULT), tickled))
      ensures sso.Confirmed() && !(recover && Uninitialized(auth)) ==>
        Tells(Verdict(Initializing, SsoValid, auth, None, tickled))
      ensures old(Undisturbed([], 1)) && sso.Confirmed() && Uninitialized(auth) ==>
        recover && compete && caller.Client? ==>
        Ungranted(old(books), books)
      ensures !(sso.Confirmed() && recover && Uninitialized(auth)) ==> Spent(old(books), books)
    {
      hide Since, Over, Published, Tells;
      if sso.Rejected() {
        Observe(start, from, caller, Verdict(LoginRequired, SsoExpired, auth, None, tickled), "");
        return;
      }
      if !sso.Confirmed() {
        var error := if sso.Failed? then sso.message else MISSING_RESULT;
        Observe(start, from, caller, Verdict(Unknown, SsoUnknown, auth, Some(error), tickled), "");
        return;
      }
      if !recover || !Uninitialized(auth) {
        Observe(start, from, caller, Verdict(Initializing, SsoValid, auth, None, tickled), "");
        return;
      }
      var gone := Gone(caller);
      if gone {
        Abandon(start, from, caller);
        return;
      }
      AskPermission(start, from, caller, compete, auth, tickled);
    }

    method AskPermission(ghost start: Manager, ghost from: seq<Event>, caller: Caller, compete: bool,
      auth: BrokerageAuth, tickled: bool)
      requires Since(start, from) && Validated(pass, compete, auth, tickled)
      requires pass.permission.None? && pass.init.None? && Undecided(pass)
      modifies `record, `watch, `clock, `outside, `pass, `books, `log
      ensures Over(start, from, caller) && old(log) <= log
      ensures compete && old(Undisturbed([], 0)) ==> Ungranted(old(books), books)
    {
      hide Since, Over;
      var answer, previousError := TryLogin(start, from);
      if answer == Denied {
        Observe(start, from, caller, Verdict(TakeoverRequired, SsoValid, auth, Some(BUDGET_MESSAGE), tickled), "");
        return;
      }
      if answer == Wait {
        var pendingError := if previousError == "" then None else Some(previousError);
        Observe(start, from, caller, Verdict(Initializing, SsoValid, auth, pendingError, tickled), "");
        return;
      }
      ghost var _ := InitializeBrokerage(start, from, caller, compete, compete || answer == Granted, auth, tickled);
    }

    /** The one initialisation of a pass: it competes exactly as often as it was let to, and ends in a verdict
        that a refusal, a lost request or a failure answer decides. */
    method InitializeBrokerage(ghost start: Manager, ghost from: seq<Event>, caller: Caller, compete: bool,
      displace: bool, auth: BrokerageAuth, tickled: bool)
      returns (ghost reply: Reply)
      requires Since(start, from) && Validated(pass, compete, auth, tickled)
      requires pass.permission == Some(Granted) || pass.permission == Some(NotNeeded)
      requires pass.init.None? && Undecided(pass) && (displace <==> compete || pass.permission == Some(Granted))
      modifies `record, `watch, `clock, `outside, `pass, `books, `log
      ensures Over(start, from, caller) && old(log) <= log && Heard(log, |old(log)|, Initialize(displace), reply)
      ensures books.sent == old(books).sent + (if displace then 1 else 0) && books.grants == old(books).grants
      ensures reply.Unauthorized? ==> Published() ==> Told().auth == auth && Told().error == Some(UNAUTHORIZED_MESSAGE)
      ensures reply.Failed? ==> Tells(Verdict(Recovering, SsoValid, auth, Some(reply.message), tickled))
      ensures reply.Answered? && reply.auth.failure != "" ==>
        Published() ==> Told().auth == reply.auth && Told().sso == SsoValid && Told().error == Some(reply.auth.failure)
    {
      hide Since, Over, JustAsked, Heard, Published, Tells;
      var initialized := Send(start, from, caller, Initialize(displace));
      reply := initialized;
      ghost var heard := log;
      JudgeAnswer(start, from, caller, compete, initialized, auth, tickled);
      StaysHeard(old(log), heard, log, Initialize(displace), reply);
    }

    method JudgeAnswer(ghost start: Manager, ghost from: seq<Event>, caller: Caller, compete: bool, reply: Reply,
      auth: BrokerageAuth, tickled: bool)
      requires Since(start, from) && Validated(pass, compete, auth, tickled)
      requires pass.permission == Some(Granted) || pass.permission == Some(NotNeeded)
      requires Undecided(pass) && pass.init == Some(reply)
      modifies `record, `watch, `clock, `outside, `pass, `books, `log
      ensures Over(start, from, caller) && old(log) <= log && Spent(old(books), books)
      ensures reply.Unauthorized? ==> Published() ==> Told().auth == auth && Told().error == Some(UNAUTHORIZED_MESSAGE)
      ensures reply.Failed? ==> Tells(Verdict(Recovering, SsoValid, auth, Some(reply.message), tickled))
      ensures reply.Answered? && reply.auth.failure != "" ==>
        Published() ==> Told().auth == reply.auth && Told().sso == SsoValid && Told().error == Some(reply.auth.failure)
    {
      hide Since, Over;
      match reply {
        case Unauthorized => ghost var _ := ObserveUnauthorized(start, from, caller, compete, auth, auth, tickled);
        case Failed(_, message) =>
          Observe(start, from, caller, Verdict(Recovering, SsoValid, auth, Some(message), tickled), "");
        case Answered(initial, _) =>
          if initial.failure != "" {
            ghost var _ := ObserveFailure(start, from, caller, compete, auth, initial, tickled);
          } else {
            ReadOutcome(start, from, caller, compete, auth, tickled);
          }
      }
    }

    method ReadOutcome(ghost start: Manager, ghost from: seq<Event>, caller: Caller, ghost compete: bool,
      ghost auth: BrokerageAuth, tickled: bool)
      requires Since(start, from) && Accepted(pass, compete, auth, tickled) && Undecided(pass)
      modifies `record, `watch, `clock, `outside, `pass, `books, `log
      ensures Over(start, from, caller) && old(log) <= log && Spent(old(books), books)
    {
      hide Since, Over, Published, Tells, NextAction, Accepted, Refused, Failing;
      AcceptedMeans(pass, compete, auth, tickled);
      var outcome := Send(start, from, caller, AuthStatus);
      OutcomeAccepted(old(pass), compete, auth, tickled, outcome);
      AcceptedMeans(pass, compete, auth, tickled);
      var final := outcome.Auth();
      if outcome.Answered? && final.failure != "" {
        ghost var _ := ObserveFailure(start, from, caller, compete, auth, final, tickled);
        return;
      }
      if outcome.Unauthorized? {
        ghost var _ := ObserveUnauthorized(start, from, caller, compete, auth, final, tickled);
        return;
      }
      ReportOutcome(start, from, caller, outcome, tickled);
    }

    method ReportOutcome(ghost start: Manager, ghost from: seq<Event>, caller: Caller, outcome: Reply, tickled: bool)
      requires Since(start, from) && !outcome.Unauthorized?
      requires Due(pass, Report(Verdict(OutcomeState(outcome.Auth()), SsoValid, outcome.Auth(),
                                        if outcome.Failed? then Some(outcome.message) else None, tickled)))
      modifies `record, `watch, `clock, `outside, `pass, `books, `log
      ensures Over(start, from, caller) && old(log) <= log && Spent(old(books), books)
    {
      hide Since, Over, Published, Tells, NextAction;
      var final := outcome.Auth();
      var next := Recovering;
      if final.competing { next := Competing; } else if final.IsReady() { next := Ready; }
      var name := "";
      if next == Ready { name := FetchAccount(start, from, caller); }
      Observe(start, from, caller,
        Verdict(next, SsoValid, final, if outcome.Failed? then Some(outcome.message) else None, tickled), name);
    }

    /** A brokerage 401 does not prove that the independent SSO session expired. */
    method ObserveUnauthorized(ghost start: Manager, ghost from: seq<Event>, caller: Caller,
                               ghost compete: bool, ghost base: BrokerageAuth, auth: BrokerageAuth, tickled: bool)
                                 returns (ghost recheck: Reply)
      requires Since(start, from) && Refused(pass, compete, base, auth, tickled) && pass.recheck.None?
      modifies `record, `watch, `clock, `outside, `pass, `books, `log
      ensures Over(start, from, caller) && old(log) <= log && Spent(old(books), books)
        && Heard(log, |old(log)|, SsoValidate, recheck)
      ensures Published() ==>
        (Told().state == LoginRequired <==> recheck.Rejected()) && (Told().sso == SsoExpired <==> recheck.Rejected())
      ensures Published() ==>
        (Told().sso == SsoValid <==> recheck.Confirmed() && !recheck.Rejected())
        && Told().state in {LoginRequired, Recovering, Unknown}
      ensures Published() ==>
        Told().auth == auth && Told().error == Some(UNAUTHORIZED_MESSAGE) && Told().tickled == tickled
    {
      hide Since, Over, Refused, NextAction, JustAsked, Heard;
      RefusedMeans(pass, compete, base, auth, tickled);
      var check := Send(start, from, caller, SsoValidate);
      recheck := check;
      ghost var heard := log;
      RecheckRefused(old(pass), compete, base, auth, tickled, check);
      RefusedMeans(pass, compete, base, auth, tickled);
      ReportRecheck(start, from, caller, check, auth, tickled);
      StaysHeard(old(log), heard, log, SsoValidate, recheck);
    }

    method ReportRecheck(ghost start: Manager, ghost from: seq<Event>, caller: Caller, check: Reply,
      auth: BrokerageAuth, tickled: bool)
      requires Since(start, from) && pass.Pass? && pass.recheck == Some(check)
        && NextAction(pass) == AfterUnauthorized(pass, auth, tickled)
      modifies `record, `watch, `clock, `outside, `pass, `books, `log
      ensures Over(start, from, caller) && old(log) <= log && Spent(old(books), books)
      ensures Published() ==> Report(Told()) == AfterUnauthorized(old(pass), auth, tickled)
    {
      hide Since, Over, NextAction;
      if check.Rejected() {
        Observe(start, from, caller, Verdict(LoginRequired, SsoExpired, auth, Some(UNAUTHORIZED_MESSAGE), tickled), "");
      } else if check.Confirmed() {
        Observe(start, from, caller, Verdict(Recovering, SsoValid, auth, Some(UNAUTHORIZED_MESSAGE), tickled), "");
      } else {
        Observe(start, from, caller, Verdict(Unknown, SsoUnknown, auth, Some(UNAUTHORIZED_MESSAGE), tickled), "");
      }
    }

    method ObserveFailure(ghost start: Manager, ghost from: seq<Event>, caller: Caller,
                          ghost compete: bool, ghost base: BrokerageAuth, auth: BrokerageAuth, tickled: bool)
                            returns (ghost active: bool)
      requires Since(start, from) && Failing(pass, compete, base, auth, tickled) && pass.retrying.None?
      modifies `record, `watch, `clock, `outside, `pass, `books, `log
      ensures Over(start, from, caller) && old(log) <= log && Spent(old(books), books)
        && Looked(origin, log, |old(log)|, active)
      ensures Published() ==>
        Told().sso == SsoValid && Told().auth == auth && Told().error == Some(auth.failure) && Told().tickled == tickled
      ensures Published() ==> (Told().state == Competing <==> !active && auth.competing)
      ensures Published() ==>
        (Told().state == TakeoverRequired <==> !active && !auth.competing && ForceCompeteRefused(auth.failure))
      ensures Published() ==> Told().state in {Recovering, Competing, TakeoverRequired}
    {
      hide Since, Over, Failing, NextAction, Looked;
      FailingMeans(pass, compete, base, auth, tickled);
      var next := Recovering;
      var retrying := StillRetrying(start, from);
      active := retrying;
      ghost var looked := log;
      RetryingFailing(old(pass), compete, base, auth, tickled, retrying);
      FailingMeans(pass, compete, base, auth, tickled);
      if auth.competing && !retrying {
        next := Competing;
      } else if !retrying && ForceCompeteRefused(auth.failure) {
        next := TakeoverRequired;
      }
      Observe(start, from, caller, Verdict(next, SsoValid, auth, Some(auth.failure), tickled), "");
      StaysLooked(origin, looked, log, |old(log)|, active);
    }

    // ---------- locks ----------

    /** acquireProcessLock: keep the lock already held, else try the one of the configured state directory. */
    method AcquireProcessLock() returns (ok: bool)
      requires Operating()
      modifies `record, `watch, `own, `outside, `books, `log, `faults
      ensures Operating() && old(log) <= log && StirredWatch(old(watch), watch)
      ensures Shaken(old(record), record) && SameCourse(old(record), record)
      ensures own == if ok then old(own).(processLock := Some(own.config.stateDir)) else old(own)
      ensures books == old(books)
      ensures ok <==> HoldsLock(own)
      ensures old(faults) == [] ==> faults == [] && ok
    {
      if own.processLock.Some? { return true; }
      var failed := Fault();
      if failed { return false; }
      TryLock();
      ok := own.processLock.Some?;
      Pause();
    }

    method TryLock()
      requires Operating() && own.processLock.None?
      modifies `own, `outside, `books, `log, `faults
      ensures Operating() && old(log) <= log
      ensures own == old(own) || own == old(own).(processLock := Some(own.config.stateDir))
      ensures books == old(books)
      ensures old(faults) == [] ==> faults == [] && own.processLock.Some?
    {
      ghost var before := State();
      var dir := own.config.stateDir;
      var taken := Fault();
      if !taken { own := own.(processLock := Some(dir)); }
      Note(before, Hosts(LockTried(dir, !taken)));
    }

    method ReleaseProcessLock()
      requires Operating() && watch.ctx.None? && NoLiveSupervisor(watch)
      modifies `own, `books, `log
      ensures Operating() && old(log) <= log && own == old(own).(processLock := None)
    {
      if own.processLock.None? { return; }
      ghost var before := State();
      own := own.(processLock := None);
      Note(before, Hosts(LockReleased));
    }

    method UpdateConfig(config: Config, trees: Installation.ProgramTrees)
      requires Operating() && own.processLock.None? && own.installLock.None?
      modifies `own, `program, `books, `log
      ensures Operating() && log == old(log) + [Hosts(ConfigSet(config))]
      ensures own == old(own).(config := config) && program == trees
    {
      ghost var before := State();
      own := own.(config := config);
      program := trees;
      Note(before, Hosts(ConfigSet(config)));
    }

    method LockInstallation() returns (ok: bool)
      requires Operating() && own.installLock.None?
      modifies `record, `watch, `own, `outside, `books, `log, `faults
      ensures Operating() && old(log) <= log && StirredWatch(old(watch), watch)
      ensures Shaken(old(record), record) && SameCourse(old(record), record)
      ensures own == if ok then old(own).(installLock := Some(own.config.gatewayDir), idle := false, inspected := false)
        else old(own)
      ensures books == old(books)
      ensures old(faults) == [] ==> faults == [] && ok
    {
      var failed := Fault();
      if failed { return false; }
      ghost var before := State();
      var taken := Fault();
      ok := !taken;
      if ok { own := own.(installLock := Some(own.config.gatewayDir), idle := false, inspected := false); }
      Note(before, Hosts(InstallTried(own.config.gatewayDir, ok)));
      Pause();
    }

    method UnlockInstallation()
      requires Operating() && own.installLock.Some?
      modifies `own, `books, `log
      ensures Operating() && log == old(log) + [Hosts(InstallReleased)]
      ensures own == old(own).(installLock := None, idle := false, inspected := false)
    {
      ghost var before := State();
      own := own.(installLock := None, idle := false, inspected := false);
      Note(before, Hosts(InstallReleased));
    }

    /** checkInstallationIdle: without a complete installation nobody is asked about. Otherwise it passes over the
        process that recovery takes for the instance's own, and over no other. */
    method CheckInstallationIdle() returns (ok: bool)
      requires Operating() && HoldsInstall(own)
      modifies `own, `outside, `books, `log, `faults
      ensures Operating() && old(log) <= log
      ensures own == if ok then old(own).(idle := true,
        inspected := Installation.Installed(program.disk, Installation.Live)) else old(own)
      ensures old(faults) == [] ==> faults == [] && ok
      ensures !Installation.Installed(program.disk, Installation.Live) ==>
        ok && log == old(log) + [Hosts(IdleConfirmed(false, None))] && books == old(books)
    {
      var installed := Installation.Installed(program.disk, Installation.Live);
      var found, doubtful := None, false;
      if installed {
        found, doubtful := Recover();
        if doubtful { return false; }
        var failed := Fault();
        if failed { return false; }
        var occupied := Fault();
        if occupied { return false; }
      }
      ghost var before := State();
      own := own.(idle := true, inspected := installed);
      Note(before, Hosts(IdleConfirmed(installed, found)));
      ok := true;
    }

    /** isOnline found somebody answering. */
    method NoteOnline()
      requires Operating()
      modifies `books, `log
      ensures Operating() && log == old(log) + [Writes(OnlineSeen)]
    {
      Note(State(), Writes(OnlineSeen));
    }

    /** loadOrRecoverOwnedProcess: the recorded process, or the one that listens where the instance's own would. It
        is taken if it looks like the instance's, whoever started it; a record that does not fit is doubtful. */
    method Recover() returns (found: Option<Process>, doubtful: bool)
      modifies `outside, `faults
      ensures found.Some? ==> Recoverable(own.config, found.value) && !doubtful
      ensures outside == old(outside).(sightings := outside.sightings)
      ensures old(faults) == [] ==> faults == [] && found.None? && !doubtful
    {
      var present := Fault();
      if present && outside.sightings != [] {
        var p := outside.sightings[0];
        outside := outside.(sightings := outside.sightings[1..]);
        if Recoverable(own.config, p) { return Some(p), false; }
      }
      doubtful := Fault();
      found := None;
    }

    // ---------- contexts and supervisors ----------

    method CancelMonitoring()
      requires Operating()
      modifies `watch, `books, `log
      ensures Operating() && log == old(log) + [Watches(MonitoringCancelled)]
      ensures books == old(books)
      ensures watch == Watched(old(watch), MonitoringCancelled) && NoLiveSupervisor(watch)
    {
      ghost var before := State();
      if watch.cancel.Some? { watch := watch.(cancelled := watch.cancelled + {watch.cancel.value}, cancel := None); }
      watch := watch.(ctx := None, monitorsStarted := false, generation := watch.generation + 1);
      Note(before, Watches(MonitoringCancelled));
    }

    method MakeContext(shelter: bool)
      requires Operating() && watch.ctx.None? && !watch.monitorsStarted && HoldsLock(own)
      modifies `watch, `books, `log
      ensures Operating() && log == old(log) + [Watches(ContextMade(shelter))]
      ensures watch == Watched(old(watch), ContextMade(shelter))
      ensures !shelter ==> watch.ctx.value !in watch.sheltered
    {
      ghost var before := State();
      var id := watch.contexts;
      watch := watch.(ctx := Some(id), cancel := Some(id), contexts := id + 1);
      if shelter { watch := watch.(sheltered := watch.sheltered + {id}); }
      Note(before, Watches(ContextMade(shelter)));
    }

    /** StartTickler: one supervisor on the manager's own context, unless one is already started. */
    method StartTickler()
      requires Operating() && watch.ctx.Some? && HoldsLock(own)
      modifies `watch, `books, `log
      ensures Operating() && old(log) <= log && watch.monitorsStarted && watch.ctx == old(watch.ctx)
        && watch.sheltered == old(watch.sheltered)
      ensures old(watch.monitorsStarted) ==> watch == old(watch)
      ensures watch.cancelled == old(watch.cancelled)
      ensures Uncancelled(watch, watch.generation) <==> watch.ctx.value !in watch.cancelled
      ensures !old(watch.monitorsStarted) ==> watch.generation == old(watch.generation) + 1
      ensures !old(watch.monitorsStarted) && watch.ctx.value in watch.sheltered ==> Uncancelled(watch, watch.generation)
    {
      if watch.monitorsStarted { return; }
      ghost var before := State();
      watch := watch.(monitorsStarted := true, generation := watch.generation + 1);
      watch := watch.(supervisors := watch.supervisors[watch.generation := watch.ctx.value]);
      Note(before, Watches(SupervisorStarted));
    }

    method EnsureSessionMonitor()
      requires Operating() && HoldsLock(own)
      modifies `watch, `books, `log
      ensures Operating() && old(log) <= log && watch.monitorsStarted
      ensures !old(watch.monitorsStarted) ==> watch.generation == old(watch.generation) + 1
      ensures old(watch.cancelled) == watch.cancelled
        && (old(Unsupervised(watch)) ==> Uncancelled(watch, watch.generation))
      ensures Uncancelled(watch, watch.generation) <==> old(watch.ctx).None? || old(watch.ctx).value !in watch.cancelled
    {
      if watch.ctx.None? { MakeContext(true); }
      StartTickler();
    }

    // ---------- processes ----------

    /** terminateProcess: ask, wait, then kill. */
    method Terminate(p: Process) returns (ok: bool)
      requires Operating() && HoldsLock(own) && Recoverable(own.config, p)
      modifies `books, `log, `faults
      ensures Operating() && old(log) < log && exists gone :: log == old(log) + [Hosts(ProcessTerminated(p, gone))]
      ensures old(faults) == [] ==> faults == [] && ok
    {
      var survived := Fault();
      var lingers := Fault();
      ghost var gone := !survived && !lingers;
      Note(State(), Hosts(ProcessTerminated(p, gone)));
      ok := !survived;
    }

    method NextPid() returns (pid: nat)
      modifies `outside
      ensures outside == old(outside).(pids := outside.pids)
    {
      pid := 0;
      if outside.pids != [] { pid, outside := outside.pids[0], outside.(pids := outside.pids[1..]); }
    }

    method Launch() returns (p: Process)
      requires Operating() && HoldsLock(own) && HoldsInstall(own)
      modifies `outside, `books, `log
      ensures Operating() && p.instance == InstanceOf(own.config) && log == old(log) + [Hosts(ProcessStarted(p))]
    {
      var pid := NextPid();
      p := Process(pid, InstanceOf(own.config));
      Note(State(), Hosts(ProcessStarted(p)));
    }

    /** stopProcess: only the process this instance recorded, recovered or started is terminated. */
    method StopProcess() returns (ok: bool)
      requires Operating()
      modifies `record, `watch, `own, `outside, `books, `log, `faults
      ensures Operating() && old(log) <= log && StirredWatch(old(watch), watch)
      ensures own == if HoldsLock(own) then old(own).(processLock := own.processLock) else old(own)
      ensures old(HoldsLock(own)) ==> HoldsLock(own)
      ensures record.session.desired == old(record).session.desired && record.lifecycle == old(record).lifecycle
      ensures ok ==> HoldsLock(own) && !record.session.processOnline
      ensures old(faults) == [] ==> faults == [] && ok && books.contacts == old(books).contacts
    {
      hide Operating, Shaken;
      ok := AcquireProcessLock();
      if ok { ok := HaltProcess(); }
    }

    method HaltProcess() returns (ok: bool)
      requires Operating() && HoldsLock(own)
      modifies `record, `outside, `books, `log, `faults
      ensures Operating() && old(log) <= log
      ensures record == if ok then old(record).(session := old(record).session.(processOnline := false))
        else old(record)
      ensures old(faults) == [] ==> faults == [] && ok && books.contacts == old(books).contacts
    {
      hide Operating;
      var target, doubtful := Recover();
      if doubtful { return false; }
      if target.None? {
        // The process started last, if it is still there: it was started for this very configuration.
        var attached := Fault();
        if attached {
          var pid := NextPid();
          target := Some(Process(pid, InstanceOf(own.config)));
        }
      }
      if target.Some? {
        var terminated := Terminate(target.value);
        if !terminated { return false; }
      }
      SetOffline();
      ok := true;
    }

    /** ensureRunning: adopt the instance's own process if it answers, else start one. */
    method EnsureRunning() returns (ok: bool)
      requires Operating() && HoldsLock(own) && HoldsInstall(own) && program.Valid()
      modifies `record, `watch, `outside, `books, `log, program, `faults, `downloads
      ensures Operating() && old(log) <= log && StirredWatch(old(watch), watch)
      ensures program.Valid() && SameProgram(old(program.disk), program.disk)
        && (old(program.faults) == [] ==> program.faults == [])
      ensures Installation.LeftOver(old(program.faults), program.faults)
      ensures program.displaced == old(program.displaced)
      ensures Shaken(old(record), record) && SameCourse(old(record), record)
      ensures old(Smooth()) ==> ok && Smooth()
    {
      hide Operating, Shaken, SameCourse, StirredWatch, SameProgram, Installation.YamlKept, Installation.SameElsewhere,
           Installation.LeftOver;
      SameProgramReflexive(program.disk);
      Installation.LeavesLater(program.faults, 0);
      Pause();
      var found, doubtful := Recover();
      if doubtful { return false; }
      if found.Some? {
        var answers := Fault();
        if answers {
          NoteOnline();
          return true;
        }
        var terminated := Terminate(found.value);
        if !terminated { return false; }
      }
      ok := StartProcess();
    }

    /** Nothing of the instance runs: configure its program and start it, unless somebody else is on its port. */
    method StartProcess() returns (ok: bool)
      requires Operating() && HoldsLock(own) && HoldsInstall(own) && program.Valid()
      modifies `outside, `books, `log, program, `faults
      ensures Operating() && old(log) <= log
      ensures program.Valid() && SameProgram(old(program.disk), program.disk)
        && (old(program.faults) == [] ==> program.faults == [])
      ensures Installation.LeftOver(old(program.faults), program.faults)
      ensures program.displaced == old(program.displaced)
      ensures old(Smooth()) ==> ok && Smooth()
    {
      hide Operating, SameProgram, Installation.YamlKept, Installation.SameElsewhere, Installation.LeftOver;
      SameProgramReflexive(program.disk);
      Installation.LeavesLater(program.faults, 0);
      var occupied := Fault();
      if occupied || !Installation.Installed(program.disk, Installation.Live) { return false; }
      ghost var before := program.disk;
      var configured := program.EnsureConf(own.config.configFile);
      PatchKeeps(before, program.disk);
      if !configured { return false; }
      ok := StartJava();
    }

    method StartJava() returns (ok: bool)
      requires Operating() && HoldsLock(own) && HoldsInstall(own)
      modifies `outside, `books, `log, `faults
      ensures Operating() && old(log) <= log
      ensures old(faults) == [] ==> faults == [] && ok
    {
      hide Operating;
      var failed := Fault();
      if failed { return false; }
      var p := Launch();
      var silent := Fault();
      if !silent { NoteOnline(); }
      var unrecorded := Fault();
      ok := !silent && !unrecorded;
      if !ok { var _ := Terminate(p); }
    }

    /** ensureInstalled: adopt what is there, else install the bundled or the verified release. */
    method EnsureInstalled() returns (ok: bool)
      requires program.Valid()
      modifies `outside, program, `faults, `downloads
      ensures program.Valid() && SameProgram(old(program.disk), program.disk)
        && (old(program.faults) == [] ==> program.faults == [])
      ensures Installation.LeftOver(old(program.faults), program.faults)
      ensures program.displaced == old(program.displaced)
      ensures ok ==> Installation.Installed(program.disk, Installation.Live)
      ensures ok && !old(Installation.Installed(program.disk, Installation.Live)) ==>
        program.disk[Installation.Live].version == if own.config.bundled then "bundled" else release
      ensures old(Smooth()) ==> ok && Smooth()
      ensures old(Barren()) ==> !ok && Barren()
    {
      hide SameProgram, Installation.LeftOver, Installation.YamlKept, Installation.ProgramTrees.Valid;
      SameProgramReflexive(program.disk);
      Installation.LeavesLater(program.faults, 0);
      var failed := Fault();
      if failed { return false; }
      var installed := Installation.Installed(program.disk, Installation.Live);
      if installed {
        failed := Fault();
        if failed { return false; }
      } else {
        ok := InstallFirst();
        if !ok { return; }
      }
      ok := ConfigureInstalled(old(program.disk), old(program.faults));
      if ok && installed {
        failed := Fault();
        ok := !failed;
      }
    }

    /** No complete program is there: take the bundled one or the verified release. */
    method InstallFirst() returns (ok: bool)
      requires program.Valid() && !Installation.Installed(program.disk, Installation.Live)
      modifies program, `downloads
      ensures program.Valid() && SameProgram(old(program.disk), program.disk)
        && (old(program.faults) == [] ==> program.faults == [])
      ensures Installation.LeftOver(old(program.faults), program.faults)
      ensures program.displaced == old(program.displaced)
      ensures ok ==>
        Installation.Installed(program.disk, Installation.Live)
        && program.disk[Installation.Live].version == if own.config.bundled then "bundled" else release
      ensures old(downloads) == [] ==>
        downloads == [] && !ok && !Installation.Installed(program.disk, Installation.Live)
    {
      hide SameProgram, Installation.LeftOver, Installation.YamlKept, Installation.ProgramTrees.Valid,
           Installation.SameElsewhere, Installation.Released;
      var staged := NextDownload();
      var version := if own.config.bundled then "bundled" else release;
      var done, restored := program.InstallRelease(staged, version, own.config.configFile);
      ReleaseLeaves(old(program.disk), own.config.configFile, staged, old(program.faults), program.faults, done,
        restored);
      FirstInstalled(old(program.disk), program.disk);
      ok := done;
    }

    /** Configure the program that is there now. */
    method ConfigureInstalled(ghost before: Installation.Disk, ghost first: seq<bool>) returns (ok: bool)
      requires program.Valid() && Installation.Installed(program.disk, Installation.Live)
      requires SameProgram(before, program.disk) && Installation.LeftOver(first, program.faults)
      modifies program
      ensures program.Valid() && SameProgram(before, program.disk) && Installation.LeftOver(first, program.faults)
      ensures program.displaced == old(program.displaced)
      ensures Installation.Installed(program.disk, Installation.Live)
        && program.disk[Installation.Live].version == old(program.disk)[Installation.Live].version
      ensures old(program.faults) == [] ==> program.faults == [] && ok
    {
      hide SameProgram, Installation.LeftOver, Installation.YamlKept, Installation.ProgramTrees.Valid,
           Installation.SameElsewhere;
      ok := program.EnsureConf(own.config.configFile);
      PatchKeeps(old(program.disk), program.disk);
      SameProgramTransitive(before, old(program.disk), program.disk);
      Installation.LeavesTogether(first, old(program.faults), program.faults);
    }

    // ---------- starting and stopping ----------

    method FailLifecycle(error: string) returns (ok: bool)
      requires Operating()
      modifies `record, `clock, `outside, `books, `log
      ensures Operating() && old(log) <= log && !ok
      ensures record == SessionProtocol.SetLifecycle(old(record), IsError, error, clock)
        && SameCourse(old(record).(lifecycle := IsError), record)
      ensures books.contacts == old(books).contacts
    {
      SetLifecycle(IsError, error);
      ok := false;
    }

    /** startWithInstallationLock. A sheltered start runs under a context that no caller can cancel. */
    method StartWithInstallationLock(shelter: bool) returns (ok: bool)
      requires Operating() && HoldsInstall(own) && program.Valid()
      modifies `record, `watch, `own, `clock, `outside, `pass, `books, `log, program, `faults, `downloads
      ensures Operating() && old(log) <= log && program.Valid() && SameProgram(old(program.disk), program.disk)
      ensures (old(program.faults) == [] ==> program.faults == []) && program.displaced == old(program.displaced)
      ensures Installation.LeftOver(old(program.faults), program.faults)
      ensures own == if HoldsLock(own) then old(own).(processLock := own.processLock) else old(own)
      ensures old(HoldsLock(own)) ==> HoldsLock(own)
      ensures record.session.desired == old(record).session.desired
      ensures Outcome(ok, shelter) && old(watch).generation < watch.generation
      ensures old(Smooth()) ==> ok && Smooth()
      ensures old(Barren()) ==> !ok && Barren() && Abandoned(shelter)
      ensures ok && shelter && record.session.desired == Connected ==> record.session.lastCheckedAt == Some(clock)
    {
      hide Operating, Shaken, SessionProtocol.SetLifecycle, SameProgram, StirredWatch, SameCourse,
           Installation.LeftOver, Installation.Installed, Installation.ProgramTrees.Valid;
      SameProgramReflexive(program.disk);
      Installation.LeavesLater(program.faults, 0);
      ok := BeginStart(shelter);
      if !ok { return; }
      ok := StartUnderContext(shelter);
    }

    /** The context is made: install, run and hand over to a supervisor. */
    method StartUnderContext(shelter: bool) returns (ok: bool)
      requires Operating() && HoldsLock(own) && HoldsInstall(own) && program.Valid()
      requires !watch.monitorsStarted && watch.ctx.Some? && (shelter <==> watch.ctx.value in watch.sheltered)
      modifies `record, `watch, `clock, `outside, `pass, `books, `log, program, `faults, `downloads
      ensures Operating() && old(log) <= log && program.Valid() && SameProgram(old(program.disk), program.disk)
      ensures (old(program.faults) == [] ==> program.faults == []) && program.displaced == old(program.displaced)
      ensures Installation.LeftOver(old(program.faults), program.faults)
      ensures record.session.desired == old(record).session.desired
      ensures Outcome(ok, shelter) && old(watch).generation <= watch.generation && watch.ctx.Some?
      ensures old(Smooth()) ==> ok && Smooth()
      ensures old(Barren()) ==> !ok && Barren()
      ensures ok && shelter && record.session.desired == Connected ==> record.session.lastCheckedAt == Some(clock)
    {
      hide Operating, Shaken, SessionProtocol.SetLifecycle, SameProgram, StirredWatch, SameCourse,
           Installation.LeftOver, Installation.Installed, Installation.ProgramTrees.Valid;
      ok := InstallAndRun();
      StirKeepsContext(old(watch), watch);
      if !ok { return; }
      Supervise();
    }

    /** Cancel the supervisors there are, take the lock, and make the context of a new one. */
    method BeginStart(shelter: bool) returns (ok: bool)
      requires Operating()
      modifies `record, `watch, `own, `clock, `outside, `books, `log, `faults
      ensures Operating() && old(log) <= log && !watch.monitorsStarted && old(watch).generation < watch.generation
      ensures own == if HoldsLock(own) then old(own).(processLock := own.processLock) else old(own)
      ensures old(HoldsLock(own)) ==> HoldsLock(own)
      ensures record.session.desired == old(record).session.desired
      ensures if ok then HoldsLock(own) && watch.ctx.Some? else record.lifecycle == IsError && watch.ctx.None?
      ensures ok && shelter ==> watch.ctx.value in watch.sheltered
      ensures ok && !shelter ==> watch.ctx.value !in watch.sheltered
      ensures old(faults) == [] ==> faults == [] && ok
    {
      hide Operating, Shaken, SessionProtocol.SetLifecycle, StirredWatch;
      CancelMonitoring();
      ghost var begun := watch;
      var locked := AcquireProcessLock();
      StirKeepsContext(begun, watch);
      if !locked { ok := FailLifecycle("lock"); return; }
      MakeContext(shelter);
      ok := true;
    }

    method InstallAndRun() returns (ok: bool)
      requires Operating() && HoldsLock(own) && HoldsInstall(own) && program.Valid()
      modifies `record, `watch, `clock, `outside, `books, `log, program, `faults, `downloads
      ensures Operating() && old(log) <= log && StirredWatch(old(watch), watch)
      ensures program.Valid() && SameProgram(old(program.disk), program.disk)
        && (old(program.faults) == [] ==> program.faults == [])
      ensures Installation.LeftOver(old(program.faults), program.faults)
      ensures program.displaced == old(program.displaced)
      ensures record.session.desired == old(record).session.desired
      ensures record.lifecycle == if ok then IsRunning else IsError
      ensures old(Smooth()) ==> ok && Smooth()
      ensures old(Barren()) ==> !ok && Barren()
    {
      hide Operating, SameProgram, Installation.Installed, Shaken, SessionProtocol.SetLifecycle, SameCourse,
           StirredWatch, Installation.LeftOver;
      Unstirred(watch);
      SetLifecycle(IsInstalling, "");
      ok := EnsureInstalled();
      if !ok { ok := FailLifecycle("ensure installed"); return; }
      ghost var between, rest := program.disk, program.faults;
      ok := Run();
      Installation.LeavesTogether(old(program.faults), rest, program.faults);
      SameProgramTransitive(old(program.disk), between, program.disk);
    }

    method Run() returns (ok: bool)
      requires Operating() && HoldsLock(own) && HoldsInstall(own) && program.Valid()
      modifies `record, `watch, `clock, `outside, `books, `log, program, `faults, `downloads
      ensures Operating() && old(log) <= log && StirredWatch(old(watch), watch)
      ensures program.Valid() && SameProgram(old(program.disk), program.disk)
        && (old(program.faults) == [] ==> program.faults == [])
      ensures Installation.LeftOver(old(program.faults), program.faults)
      ensures program.displaced == old(program.displaced)
      ensures record.session.desired == old(record).session.desired
      ensures record.lifecycle == if ok then IsRunning else IsError
      ensures old(Smooth()) ==> ok && Smooth()
    {
      hide Operating, SameProgram, Installation.Installed, Shaken, SessionProtocol.SetLifecycle, StirredWatch,
           Installation.LeftOver;
      SetLifecycle(IsStarting, "");
      ok := EnsureRunning();
      if !ok { ok := FailLifecycle("ensure running"); return; }
      MarkRunning();
    }

    /** The end of a start: probe once under the new context, then hand over to a supervisor. */
    method Supervise()
      requires Operating() && HoldsLock(own) && watch.ctx.Some? && !watch.monitorsStarted
      modifies `record, `watch, `clock, `outside, `pass, `books, `log
      ensures Operating() && old(log) <= log && record.session.desired == old(record).session.desired
      ensures record.lifecycle in {old(record).lifecycle, IsRunning, IsAuthRequired}
      ensures watch.monitorsStarted && watch.ctx == old(watch.ctx) && watch.sheltered == old(watch.sheltered)
      ensures watch.generation == old(watch).generation + 1
      ensures watch.ctx.value in watch.sheltered ==> Uncancelled(watch, watch.generation)
      ensures record.session.desired == Connected && watch.ctx.value in watch.sheltered ==>
        record.session.lastCheckedAt == Some(clock)
    {
      hide Operating;
      if record.session.desired == Connected {
        RefreshSession(Own(watch.ctx.value), None, true, false);
      } else {
        ClearSession(Mirror(record.session.desired));
      }
      Pause();
      StartTickler();
    }

    /** How a start ends: supervised and running, or failed with no supervisor at all. */
    ghost predicate Outcome(ok: bool, shelter: bool)
      reads `record, `watch, `own
    {
      && (watch.monitorsStarted <==> ok)
      && (ok ==> HoldsLock(own) && record.lifecycle in {IsRunning, IsAuthRequired})
      && (!ok ==> record.lifecycle == IsError)
      && (watch.ctx.Some? ==> (shelter <==> watch.ctx.value in watch.sheltered))
      && (shelter && ok ==> Uncancelled(watch, watch.generation))
    }

    /** A start that failed after it made its context: nobody uses the context, and whoever made it may cancel it. */
    ghost predicate Abandoned(shelter: bool)
      reads `watch
    {
      !watch.monitorsStarted && watch.ctx.Some? && (shelter || watch.ctx.value !in watch.sheltered)
    }

    // ---------- operations ----------

    /** How every explicit operation begins: own the directory, then record what the operator wants. */
    method TakeIntent(intent: Intent) returns (ok: bool)
      requires Operating()
      modifies `record, `watch, `own, `outside, `books, `log, `faults
      ensures Operating() && old(log) <= log && StirredWatch(old(watch), watch)
      ensures ok ==> HoldsLock(own) && record.session.desired == intent == Saved(own)
      ensures own == old(own).(processLock := own.processLock, disk := own.disk)
      ensures record.session.desired in {old(record).session.desired, intent}
        && record.lifecycle == old(record).lifecycle
      ensures !ok ==> record.session.desired == old(record).session.desired && own.disk == old(own).disk
      ensures old(faults) == [] ==> faults == [] && ok
    {
      hide Operating, Shaken, Intended;
      ok := AcquireProcessLock();
      if ok { ok := SetIntent(intent); }
    }

    method StartLocked(shelter: bool) returns (ok: bool)
      requires Operating() && own.installLock.None? && program.Valid()
      modifies `record, `watch, `own, `clock, `outside, `pass, `books, `log, program, `faults, `downloads
      ensures Operating() && old(log) <= log && program.Valid() && SameProgram(old(program.disk), program.disk)
      ensures own.installLock.None? && own.config == old(own).config && own.disk == old(own).disk
      ensures old(HoldsLock(own)) ==> HoldsLock(own)
      ensures record.session.desired == old(record).session.desired
      ensures ok ==> Outcome(true, shelter)
      ensures old(watch).generation <= watch.generation
      ensures !ok && old(Unsupervised(watch)) && shelter ==> Unsupervised(watch)
      ensures old(Smooth()) ==> ok && Smooth()
      ensures old(Barren()) ==> !ok && Barren() && Abandoned(shelter)
      ensures ok && shelter && record.session.desired == Connected ==> record.session.lastCheckedAt == Some(clock)
    {
      hide Operating, SameProgram, Installation.ProgramTrees.Valid, Shaken, Intended, SessionProtocol.SetLifecycle,
           Clear, Invalidated;
      var locked := LockInstallation();
      if !locked { SameProgramReflexive(program.disk); return false; }
      ok := StartWithInstallationLock(shelter);
      UnlockInstallation();
    }

    /** Start and StartGateway: an explicit wish to be connected. */
    method Start() returns (ok: bool)
      requires Quiet()
      modifies `record, `watch, `own, `clock, `outside, `pass, `books, `log, program, `faults, `downloads
      ensures Quiet() && old(log) <= log && SameProgram(old(program.disk), program.disk)
      ensures ok ==> Outcome(true, false) && record.session.desired == Connected == Saved(own)
      ensures old(Smooth()) ==> ok && Smooth()
      ensures old(Barren()) ==> !ok && Barren() && Abandoned(false)
      ensures own.config == old(own).config
    {
      hide Operating, SameProgram, Installation.ProgramTrees.Valid, Shaken, Intended, SessionProtocol.SetLifecycle,
           Clear, Invalidated;
      SameProgramReflexive(program.disk);
      ok := TakeIntent(Connected);
      if !ok { return; }
      ok := StartLocked(false);
    }

    /** AutoStartGateway honours the saved intent. */
    method AutoStart() returns (ok: bool)
      requires Quiet()
      modifies `record, `watch, `own, `clock, `outside, `pass, `books, `log, program, `faults, `downloads
      ensures Quiet() && old(log) <= log && SameProgram(old(program.disk), program.disk)
      ensures old(record).intentError.None? && old(record).session.desired != Connected ==> ok
      ensures old(record).session.desired != Connected ==> State() == old(State()) && log == old(log)
      ensures ok && old(record).session.desired == Connected ==> Outcome(true, false)
      ensures old(Smooth()) && old(record).intentError.None? ==> ok
    {
      hide Operating, SameProgram, Installation.ProgramTrees.Valid, Shaken, Intended, SessionProtocol.SetLifecycle,
           Clear, Invalidated;
      SameProgramReflexive(program.disk);
      if record.intentError.Some? { return false; }
      if record.session.desired != Connected { return true; }
      ok := StartLocked(false);
    }

    /** Stopped, or detached with the process left running: no supervisor, no lock, nothing published as known. */
    ghost predicate AtRest(lifecycle: Lifecycle)
      reads `record, `watch, `own
    {
      && own.processLock.None? && watch.ctx.None? && NoLiveSupervisor(watch)
      && record.lifecycle == lifecycle && record.session.state == Mirror(Stopped) && !record.session.processOnline
    }

    method StopGatewayLocked(keep: bool) returns (ok: bool)
      requires Operating() && HoldsLock(own)
      modifies `record, `watch, `own, `clock, `outside, `pass, `books, `log, `faults
      ensures Operating() && old(log) <= log && record.session.desired == old(record).session.desired
      ensures own == old(own).(processLock := own.processLock)
      ensures ok ==> AtRest(if keep then IsDetached else IsStopped)
      ensures !ok ==> !keep && HoldsLock(own) && record.lifecycle == IsError
      ensures old(faults) == [] ==> faults == [] && ok
    {
      hide Operating, Installation.ProgramTrees.Valid, Shaken, Intended, SessionProtocol.SetLifecycle, Clear,
           Invalidated, Saved, SameCourse, StirredWatch;
      SetLifecycle(IsStopping, "");
      ClearSession(Mirror(Stopped));
      CancelMonitoring();
      if keep {
        Detach();
        return true;
      }
      ok := KillAndRelease();
    }

    method Detach()
      requires Operating() && HoldsLock(own) && watch.ctx.None? && NoLiveSupervisor(watch)
        && !record.session.processOnline
      modifies `record, `own, `clock, `outside, `books, `log
      ensures Operating() && old(log) <= log && record.session.desired == old(record).session.desired
      ensures own == old(own).(processLock := None) && AtRest(IsDetached)
    {
      hide Operating, SessionProtocol.SetLifecycle, NoLiveSupervisor;
      ReleaseProcessLock();
      SetLifecycle(IsDetached, "");
    }

    method KillAndRelease() returns (ok: bool)
      requires Operating() && HoldsLock(own) && watch.ctx.None? && NoLiveSupervisor(watch)
      modifies `record, `watch, `own, `clock, `outside, `books, `log, `faults
      ensures Operating() && old(log) <= log && record.session.desired == old(record).session.desired
      ensures own == old(own).(processLock := own.processLock)
      ensures ok ==> AtRest(IsStopped)
      ensures !ok ==> HoldsLock(own) && record.lifecycle == IsError
      ensures old(faults) == [] ==> faults == [] && ok
    {
      hide Operating, Shaken, SessionProtocol.SetLifecycle, Clear, Invalidated, SameCourse, StirredWatch;
      ok := StopProcess();
      StirKeepsContext(old(watch), watch);
      if !ok { ok := FailLifecycle("stop"); return; }
      ReleaseProcessLock();
      ClearSession(Mirror(Stopped));
      SetLifecycle(IsStopped, "");
    }

    method StopGateway(keep: bool) returns (ok: bool)
      requires Quiet()
      modifies `record, `watch, `own, `clock, `outside, `pass, `books, `log, `faults
      ensures Quiet() && old(log) <= log
      ensures ok ==> AtRest(if keep then IsDetached else IsStopped) && record.session.desired == Stopped == Saved(own)
      ensures old(faults) == [] ==> faults == [] && ok
      ensures own.config == old(own).config
    {
      hide Operating, Installation.ProgramTrees.Valid, Shaken, Intended, SessionProtocol.SetLifecycle, Clear,
           Invalidated;
      ok := TakeIntent(Stopped);
      if !ok { return; }
      ok := StopGatewayLocked(keep);
    }

    /** Shutdown keeps the saved intent; a persistent instance keeps its process. */
    method Shutdown() returns (ok: bool)
      requires Quiet()
      modifies `record, `watch, `own, `clock, `outside, `pass, `books, `log, `faults
      ensures Quiet() && old(log) <= log
      ensures record.session.desired == old(record).session.desired && own.disk == old(own).disk
      ensures ok ==> AtRest(if own.config.persistent then IsDetached else IsStopped)
      ensures old(faults) == [] ==> faults == [] && ok
    {
      hide Operating, Installation.ProgramTrees.Valid, Shaken, Intended, SessionProtocol.SetLifecycle, Clear,
           Invalidated;
      ok := AcquireProcessLock();
      if !ok { return; }
      ok := StopGatewayLocked(own.config.persistent);
    }

    // ---------- configuration ----------

    /** Leave the configured directories: no supervisor, and if they are this manager's, no process and no lock. */
    method Vacate() returns (ok: bool)
      requires Operating()
      modifies `record, `watch, `own, `outside, `books, `log, `faults
      ensures Operating() && old(log) <= log && watch.ctx.None? && NoLiveSupervisor(watch) && Unsupervised(watch)
      ensures record.session.desired == old(record).session.desired
      ensures own == if ok then old(own).(processLock := None) else old(own)
      ensures old(faults) == [] ==> faults == [] && ok
    {
      assert own.processLock.Some? ==> HoldsLock(own);
      hide Operating, Shaken;
      CancelMonitoring();
      ok := true;
      // A failed attempt to acquire the destination lock must never stop its owner.
      if own.processLock.Some? { ok := StopProcess(); }
      if ok { ReleaseProcessLock(); }
    }

    /** Reconfigure: stop under the old paths, then take the lock of the new ones. */
    method Reconfigure(config: Config, trees: Installation.ProgramTrees) returns (ok: bool)
      requires Quiet() && trees.Valid()
      modifies `record, `watch, `own, `clock, `outside, `pass, `books, `log, `program, trees, `faults, `downloads
      ensures Quiet() && old(log) <= log && program in {old(program), trees} && trees.Valid()
      ensures record.session.desired == old(record).session.desired
      ensures ok ==> own.config == config && HoldsLock(own) && Saved(own) == record.session.desired
      ensures ok && record.session.desired == Connected ==> Outcome(true, true)
      ensures ok && record.session.desired != Connected ==>
        Unsupervised(watch) && record.lifecycle == IsStopped && record.session.state == Mirror(Stopped)
          && !record.session.processOnline
      ensures old(faults) == [] && old(trees.Ready()) ==> ok
    {
      hide Operating, Installation.ProgramTrees.Valid, Shaken, Intended, SessionProtocol.SetLifecycle, Clear,
           Invalidated, SameProgram, Outcome, SameCourse, NoLiveSupervisor, StirredWatch, Saved, SavedAs, Unsupervised;
      ok := MoveOut();
      if !ok { return; }
      UpdateConfig(config, trees);
      ClearSession(Unknown);
      ok := MoveIn();
    }

    /** The first half of Reconfigure, under the old configuration. */
    method MoveOut() returns (ok: bool)
      requires Operating()
      modifies `record, `watch, `own, `clock, `outside, `books, `log, `faults
      ensures Operating() && old(log) <= log && record.session.desired == old(record).session.desired
      ensures own == old(own).(processLock := own.processLock)
      ensures ok ==> own.processLock.None? && watch.ctx.None? && NoLiveSupervisor(watch) && Unsupervised(watch)
      ensures old(faults) == [] ==> faults == [] && ok
    {
      hide Operating, SessionProtocol.SetLifecycle, NoLiveSupervisor, Unsupervised, Shaken;
      ok := AcquireProcessLock();
      if !ok { return; }
      ok := Vacate();
      if !ok { ok := FailLifecycle("reconfigure"); }
    }

    /** The second half of Reconfigure, under the new configuration. */
    method MoveIn() returns (ok: bool)
      requires Quiet() && Unsupervised(watch) && watch.ctx.None?
      modifies `record, `watch, `own, `clock, `outside, `pass, `books, `log, program, `faults, `downloads
      ensures Quiet() && old(log) <= log && own.config == old(own).config
      ensures record.session.desired == old(record).session.desired
      ensures ok ==> HoldsLock(own) && Saved(own) == record.session.desired
      ensures ok && record.session.desired == Connected ==> Outcome(true, true)
      ensures ok && record.session.desired != Connected ==>
        Unsupervised(watch) && record.lifecycle == IsStopped && record.session.state == Mirror(Stopped)
          && !record.session.processOnline
      ensures old(Smooth()) ==> ok && Smooth()
    {
      hide Operating, SameProgram, Installation.ProgramTrees.Valid, Shaken, Intended, SessionProtocol.SetLifecycle,
           Clear, Invalidated;
      ok := TakeIntent(record.session.desired);
      if !ok { return; }
      if record.session.desired != Connected {
        RestAsWanted();
        return true;
      }
      ok := StartLocked(true);
      if !ok { ok := FailLifecycle("reconfigure"); }
    }

    /** Not connected: nothing runs under the new configuration, and its lock is kept. */
    method RestAsWanted()
      requires Operating()
      modifies `record, `clock, `outside, `books, `log
      ensures Operating() && old(log) <= log && record.session.desired == old(record).session.desired
      ensures record.lifecycle == IsStopped && record.session.state == Mirror(Stopped) && !record.session.processOnline
    {
      hide Operating, SessionProtocol.SetLifecycle, Clear, Invalidated;
      ClearSession(Mirror(record.session.desired));
      SetOffline();
      SetLifecycle(IsStopped, "");
    }

    /** RestoreConfiguration: only a lock this manager holds lets it stop the process. */
    method RestoreConfiguration(config: Config, trees: Installation.ProgramTrees, previous: Previous) returns (ok: bool)
      requires Quiet() && trees.Valid()
      modifies `record, `watch, `own, `clock, `outside, `pass, `books, `log, `program, trees, `faults, `downloads
      ensures Quiet() && old(log) <= log && program in {old(program), trees} && trees.Valid()
      ensures ok ==> own.config == config && record.session.desired == previous.desired == Saved(own)
      ensures ok && previous.running && !previous.detached ==> Outcome(true, true)
      ensures ok && previous.detached ==> AtRest(IsDetached)
      ensures ok && !previous.running && !previous.detached ==>
        own.processLock.None? && Unsupervised(watch) && record.lifecycle == IsStopped
      ensures old(faults) == [] && old(trees.Ready()) ==> ok
    {
      hide Operating, Installation.ProgramTrees.Valid, Shaken, Intended, SessionProtocol.SetLifecycle, Clear,
           Invalidated;
      ok := Vacate();
      if !ok { return; }
      UpdateConfig(config, trees);
      ok := Resettle(previous);
    }

    /** The second half of RestoreConfiguration, under the restored configuration. */
    method Resettle(previous: Previous) returns (ok: bool)
      requires Quiet() && watch.ctx.None? && NoLiveSupervisor(watch) && Unsupervised(watch)
      modifies `record, `watch, `own, `clock, `outside, `pass, `books, `log, program, `faults, `downloads
      ensures Quiet() && old(log) <= log && own.config == old(own).config
      ensures ok ==> record.session.desired == previous.desired == Saved(own)
      ensures ok && previous.running && !previous.detached ==> Outcome(true, true)
      ensures ok && previous.detached ==> AtRest(IsDetached)
      ensures ok && !previous.running && !previous.detached ==>
        own.processLock.None? && Unsupervised(watch) && record.lifecycle == IsStopped
      ensures old(Smooth()) ==> ok && Smooth()
    {
      hide Operating, SameProgram, Installation.ProgramTrees.Valid, Shaken, Intended, SessionProtocol.SetLifecycle,
           Clear, Invalidated;
      ok := TakeIntent(previous.desired);
      if !ok { return; }
      ok := RestoreMode(previous);
    }

    /** Bring the process back to where it was: running, detached, or stopped and released. */
    method RestoreMode(previous: Previous) returns (ok: bool)
      requires Quiet() && HoldsLock(own) && Saved(own) == record.session.desired == previous.desired
      requires watch.ctx.None? && NoLiveSupervisor(watch) && Unsupervised(watch)
      modifies `record, `watch, `own, `clock, `outside, `pass, `books, `log, program, `faults, `downloads
      ensures Quiet() && old(log) <= log && own.config == old(own).config && own.disk == old(own).disk
      ensures record.session.desired == old(record).session.desired
      ensures ok && previous.running && !previous.detached ==> Outcome(true, true)
      ensures ok && previous.detached ==> AtRest(IsDetached)
      ensures ok && !previous.running && !previous.detached ==>
        own.processLock.None? && Unsupervised(watch) && record.lifecycle == IsStopped
      ensures old(Smooth()) ==> ok && Smooth()
    {
      hide Operating, SameProgram, Installation.ProgramTrees.Valid, Shaken, SessionProtocol.SetLifecycle, Clear,
           Invalidated, Saved, SavedAs, SameCourse;
      ClearSession(Mirror(previous.desired));
      if previous.running || previous.detached {
        ok := StartAgain(previous.detached);
      } else {
        SetLifecycle(IsStopped, "");
        ReleaseProcessLock();
        ok := true;
      }
    }

    method StartAgain(detach: bool) returns (ok: bool)
      requires Quiet() && HoldsLock(own) && Unsupervised(watch)
      modifies `record, `watch, `own, `clock, `outside, `pass, `books, `log, program, `faults, `downloads
      ensures Quiet() && old(log) <= log && own.config == old(own).config && own.disk == old(own).disk
      ensures record.session.desired == old(record).session.desired
      ensures ok ==> if detach then AtRest(IsDetached) else Outcome(true, true)
      ensures old(Smooth()) ==> ok && Smooth()
    {
      hide Operating, SameProgram, Installation.ProgramTrees.Valid, Shaken, Outcome, AtRest, Saved,
           SessionProtocol.SetLifecycle;
      ok := StartLocked(true);
      if ok && detach { ok := StopGatewayLocked(true); }
    }

    // ---------- restarts ----------

    /** restartLocked: the new supervisor runs under a context that outlives the old one. */
    method RestartLocked() returns (ok: bool)
      requires Operating() && own.installLock.None? && program.Valid()
      modifies `record, `watch, `own, `clock, `outside, `pass, `books, `log, program, `faults, `downloads
      ensures Operating() && old(log) <= log && program.Valid() && SameProgram(old(program.disk), program.disk)
      ensures own.installLock.None? && own.config == old(own).config && own.disk == old(own).disk
      ensures record.session.desired == old(record).session.desired
      ensures old(HoldsLock(own)) ==> HoldsLock(own)
      ensures ok ==> Outcome(true, true) && old(watch).generation < watch.generation
      ensures !ok && old(HoldsLock(own)) ==>
        Unsupervised(watch) && record.lifecycle == IsError && old(watch).generation < watch.generation
      ensures old(Smooth()) ==> ok && Smooth()
    {
      hide Operating, SameProgram, Installation.ProgramTrees.Valid, Shaken, Intended, SessionProtocol.SetLifecycle,
           Clear, Invalidated, Outcome;
      SameProgramReflexive(program.disk);
      ok := AcquireProcessLock();
      if !ok { return; }
      ok := BringDown();
      if !ok { ok := FailLifecycle("restart"); return; }
      ok := StartLocked(true);
      if !ok { ok := FailLifecycle("restart"); }
    }

    /** The supervisor that may have asked for the restart is cancelled before the process is stopped. */
    method BringDown() returns (ok: bool)
      requires Operating() && HoldsLock(own)
      modifies `record, `watch, `own, `clock, `outside, `books, `log, `faults
      ensures Operating() && old(log) <= log && HoldsLock(own) && own == old(own)
      ensures watch.ctx.None? && Unsupervised(watch) && old(watch).generation < watch.generation
      ensures record.session.desired == old(record).session.desired
      ensures old(faults) == [] ==> faults == [] && ok
    {
      hide Operating, Shaken, SessionProtocol.SetLifecycle, Invalidated;
      SetLifecycle(IsRestarting, "");
      ResetSession();
      CancelMonitoring();
      ok := StopProcess();
    }

    /** restart: a stopped instance is connected again, any other keeps its intent. */
    method Restart() returns (ok: bool)
      requires Quiet()
      modifies `record, `watch, `own, `clock, `outside, `pass, `books, `log, program, `faults, `downloads
      ensures Quiet() && old(log) <= log && SameProgram(old(program.disk), program.disk)
      ensures record.session.desired in {old(record).session.desired, Connected}
      ensures ok ==> Outcome(true, true) && record.session.desired != Stopped
      ensures old(Smooth()) ==> ok && Smooth()
    {
      hide Operating, SameProgram, Installation.ProgramTrees.Valid, Shaken, Intended, SessionProtocol.SetLifecycle,
           Clear, Invalidated;
      SameProgramReflexive(program.disk);
      ok := AcquireProcessLock();
      if !ok { return; }
      if record.session.desired == Stopped {
        ok := SetIntent(Connected);
        if !ok { return; }
      }
      ok := RestartLocked();
    }

    /** shouldRestartProcess: filter the window in place, then grant at most the third of fifteen minutes. */
    method ShouldRestartProcess(caller: Caller) returns (grant: bool)
      requires Operating() && HoldsLock(own)
      modifies `record, `clock, `outside, `books, `log
      ensures Operating() && old(log) <= log && record.session.desired == old(record).session.desired
      ensures grant ==> old(record).session.desired == Connected && old(record).localFailures >= 3
      ensures grant ==>
        books.restarts == old(books).restarts + [clock] && record.localFailures == 0 && |record.restartAttempts| <= 3
      ensures !grant ==> books == old(books).(armed := books.armed) && record.localFailures == old(record).localFailures
      ensures caller.Own? && caller.id !in watch.cancelled ==>
        old(record).session.desired == Connected && old(record).localFailures >= 3 ==>
        (grant <==> |Recent(old(record).restartAttempts, clock)| < 3)
      ensures !grant && caller.Own? && caller.id !in watch.cancelled && record.session.desired == Connected ==>
        record.localFailures < 3 || |record.restartAttempts| >= 3
    {
      var gone := Gone(caller);
      if gone || record.session.desired != Connected || record.localFailures < 3 { return false; }
      ghost var before := State();
      var now := Now();
      ForgetOldRestarts(now);
      clock := now;
      if |record.restartAttempts| >= 3 {
        record := record.(session := record.session.(error := RESTART_LIMIT_MESSAGE));
        grant := false;
      } else {
        record := record.(restartAttempts := record.restartAttempts + [now]);
        record := record.(localFailures := 0);
        grant := true;
      }
      Note(before, Writes(RestartChecked(now)));
    }

    /** recent := g.restartAttempts[:0], and so on: the window is compacted in the slice that holds it. */
    method ForgetOldRestarts(now: int)
      modifies `record
      ensures record == old(record).(restartAttempts := Recent(old(record).restartAttempts, now))
    {
      var known := record.restartAttempts;
      var attempts := new int[|known|](i requires 0 <= i < |known| => known[i]);
      assert attempts[..attempts.Length] == known;
      var kept := KeepRecent(attempts, attempts.Length, now);
      record := record.(restartAttempts := attempts[..kept]);
    }

    method ReportRestartFailure(error: string)
      requires Operating()
      modifies `record, `books, `log
      ensures Operating() && log == old(log) + [Writes(RestartReported(error))]
      ensures record == old(record).(session := old(record).session.(error := error))
    {
      ghost var before := State();
      record := record.(session := record.session.(error := error));
      Note(before, Writes(RestartReported(error)));
    }

    /** One wake-up of supervisor g. A supervisor that is not cancelled is the current one and owns the
        directory; after a failed restart exactly one live supervisor of a later generation replaces it. */
    method SupervisorPass(g: nat) returns (restarted: Option<bool>)
      requires Quiet() && g in watch.supervisors
      modifies `record, `watch, `own, `clock, `outside, `pass, `books, `log, `busy, program, `faults, `downloads
      ensures Quiet() && old(log) <= log && record.session.desired == old(record).session.desired
      ensures old(!Uncancelled(watch, g)) ==> State() == old(State()) && log == old(log) && restarted.None?
      ensures restarted.Some? ==> old(record).session.desired == Connected && HoldsLock(own)
      ensures restarted.Some? ==> Uncancelled(watch, watch.generation) && watch.generation > g
      ensures restarted == Some(true) ==> record.lifecycle in {IsRunning, IsAuthRequired}
      ensures old(Uncancelled(watch, g)) && old(record).session.desired == Connected ==> old(log) < log
      ensures restarted.None? ==> books.restarts == old(books).restarts
      ensures restarted.None? && Uncancelled(watch, g) && record.session.desired == Connected ==>
        record.localFailures < 3 || |record.restartAttempts| >= 3
    {
      var id := watch.supervisors[g];
      if id in watch.cancelled { return None; }
      busy := Some(g);
      var due := PassAndCheck(g, id);
      hide Operating;
      restarted := None;
      if due {
        var ok := RestartAndReplace();
        restarted := Some(ok);
      }
      busy := None;
    }

    /** One pass of a live supervisor, and whether the process is due for a restart after it. */
    method PassAndCheck(g: nat, id: nat) returns (due: bool)
      requires Operating() && busy == Some(g) && Uncancelled(watch, g) && watch.supervisors[g] == id
      modifies `record, `watch, `clock, `outside, `pass, `books, `log
      ensures Operating() && old(log) <= log && record.session.desired == old(record).session.desired
      ensures own == old(own) && HoldsLock(own) && watch.generation == old(watch).generation == g
      ensures old(record).session.desired == Connected ==> old(log) < log
      ensures due ==> record.session.desired == Connected
      ensures !due ==> books.restarts == old(books).restarts
      ensures !due && Uncancelled(watch, g) && record.session.desired == Connected ==>
        record.localFailures < 3 || |record.restartAttempts| >= 3
    {
      RefreshSession(Own(id), Some(g), true, false);
      due := ShouldRestartProcess(Own(id));
    }

    /** nextSessionDelay: five seconds while a permission is active, a minute when only time or the operator can
        change anything, else the published retry delay and up to a tenth more. */
    method NextSessionDelay(jitter: nat) returns (delay: int)
      modifies `outside
      ensures 5 * SECOND <= delay <= 5 * MINUTE + 30 * SECOND
      ensures delay == 5 * SECOND || delay == MINUTE || RetryDelay(record.session.retryCount) <= delay
      ensures record.session.ready && record.session.state == Ready && record.login == NO_LOGIN ==> delay == MINUTE
    {
      var now := Now();
      if record.login.Active(now) { return 5 * SECOND; }
      match record.session.state {
        case Ready => delay := MINUTE;
        case Competing => delay := MINUTE;
        case TakeoverRequired => delay := MINUTE;
        case Mirror(LoggedOut) => delay := MINUTE;
        case Mirror(Stopped) => delay := MINUTE;
        case LoginRequired => delay := if now - record.stateUpdatedAt > 10 * MINUTE then MINUTE else 5 * SECOND;
        case _ =>
          delay := RetryDelay(record.session.retryCount);
          delay := delay + jitter % (delay / 10 + 1);
      }
    }

    /** A failed restart may cancel the supervisor that asked for it before launching a replacement. */
    method RestartAndReplace() returns (ok: bool)
      requires Operating() && HoldsLock(own) && own.installLock.None? && program.Valid()
      modifies `record, `watch, `own, `clock, `outside, `pass, `books, `log, program, `faults, `downloads
      ensures Operating() && old(log) <= log && HoldsLock(own) && own.installLock.None? && program.Valid()
      ensures record.session.desired == old(record).session.desired
      ensures Uncancelled(watch, watch.generation) && old(watch).generation < watch.generation
      ensures ok ==> record.lifecycle in {IsRunning, IsAuthRequired}
      ensures old(Smooth()) ==> ok && Smooth()
    {
      hide Operating, SameProgram, Installation.ProgramTrees.Valid;
      ok := RestartLocked();
      if !ok {
        ReportRestartFailure("restart failed");
        EnsureSessionMonitor();
      }
    }

    // ---------- sessions ----------

    /** RecoverSession: an explicit recovery, and with `compete` an explicit takeover. */
    method RecoverSession(compete: bool) returns (ok: bool)
      requires Quiet()
      modifies `record, `watch, `own, `clock, `outside, `pass, `books, `log, `faults
      ensures Quiet() && old(log) <= log
      ensures ok ==> record.session.desired == Connected == Saved(own) && HoldsLock(own) && watch.monitorsStarted
      ensures ok ==>
        (Uncancelled(watch, watch.generation) <==> old(watch.ctx).None? || old(watch.ctx).value !in watch.cancelled)
      ensures old(faults) == [] ==> record.session.desired == Connected && HoldsLock(own) && watch.monitorsStarted
    {
      hide Operating, StirredWatch, Installation.ProgramTrees.Valid, Shaken, Intended, SessionProtocol.SetLifecycle,
           Clear, Invalidated;
      ok := TakeIntent(Connected);
      if !ok { return; }
      StirKeepsContext(old(watch), watch);
      ok := AttemptRecovery(compete);
    }

    method AttemptRecovery(compete: bool) returns (ok: bool)
      requires Operating() && HoldsLock(own) && record.session.desired == Connected
      modifies `record, `watch, `clock, `outside, `pass, `books, `log
      ensures Operating() && old(log) <= log && record.session.desired == Connected && watch.monitorsStarted
      ensures Uncancelled(watch, watch.generation) <==> old(watch.ctx).None? || old(watch.ctx).value !in watch.cancelled
    {
      hide Operating, StirredWatch;
      ResetRetries();
      if compete { BeginLogin(true); }
      RefreshSession(Client, None, true, compete);
      StirKeepsContext(old(watch), watch);
      ok := record.session.ready;
      EnsureSessionMonitor();
    }

    /** ResumeSession: an explicit login attempt; the supervisor does the rest. */
    method ResumeSession() returns (ok: bool)
      requires Quiet()
      modifies `record, `watch, `own, `clock, `outside, `pass, `books, `log, `faults
      ensures Quiet() && old(log) <= log
      ensures ok ==> record.session.desired == Connected == Saved(own) && HoldsLock(own) && watch.monitorsStarted
      ensures ok ==> record.session.state == LoginRequired && record.login == NewLogin(clock)
      ensures ok ==>
        (Uncancelled(watch, watch.generation) <==> old(watch.ctx).None? || old(watch.ctx).value !in watch.cancelled)
      ensures old(watch).cancelled <= watch.cancelled
      ensures old(faults) == [] ==> faults == [] && ok
    {
      hide Operating, StirredWatch, Installation.ProgramTrees.Valid, Shaken, Intended, SessionProtocol.SetLifecycle,
           Clear, Invalidated;
      ok := TakeIntent(Connected);
      StirKeepsContext(old(watch), watch);
      if !ok { return; }
      ClearSession(LoginRequired);
      BeginLogin(false);
      EnsureSessionMonitor();
    }

    /** Logout: even a failed logout disables every automatic recovery. */
    method Logout() returns (ok: bool, confirmed: bool)
      requires Quiet()
      modifies `record, `watch, `own, `clock, `outside, `pass, `books, `log, `faults
      ensures Quiet() && old(log) <= log && watch.generation == old(watch).generation
      ensures ok ==> record.session.desired == LoggedOut == Saved(own) && record.session.state == Mirror(LoggedOut)
      ensures ok ==> !record.session.ready && record.account == "" && record.login == NO_LOGIN
      ensures ok ==>
        record.session.sso == (if confirmed then SsoExpired else SsoUnknown) && (record.session.stale <==> !confirmed)
      ensures confirmed ==> ok
      ensures old(faults) == [] ==> faults == [] && ok
    {
      hide Operating, Installation.ProgramTrees.Valid;
      confirmed := false;
      ok := TakeIntent(LoggedOut);
      if ok { confirmed := LeaveSession(); }
    }

    method LeaveSession() returns (confirmed: bool)
      requires Operating() && HoldsLock(own) && record.session.desired == LoggedOut == Saved(own)
      modifies `record, `watch, `clock, `outside, `books, `log
      ensures Operating() && old(log) <= log && StirredWatch(old(watch), watch)
      ensures record.session.desired == LoggedOut && record.session.state == Mirror(LoggedOut)
      ensures !record.session.ready && record.account == "" && record.login == NO_LOGIN
      ensures record.session.sso == (if confirmed then SsoExpired else SsoUnknown)
        && (record.session.stale <==> !confirmed)
    {
      hide Operating, StirredWatch, SessionProtocol.SetLifecycle, Lost;
      ClearSession(Mirror(LoggedOut));
      Pause();
      var reply := RequestLogout();
      confirmed := reply.Unauthorized? || reply.Confirmed();
      ReportLogout(if confirmed then None else Some(LogoutFailure(reply)));
    }

    method RequestLogout() returns (reply: Reply)
      requires Operating() && HoldsLock(own) && record.session.desired == LoggedOut == Saved(own)
        && record.session.state == Mirror(LoggedOut)
      modifies `record, `outside, `books, `log
      ensures Operating() && old(log) <= log
      ensures record == old(record).(session := old(record).session.(processOnline := record.session.processOnline))
      ensures record.session.processOnline ==> old(record).session.processOnline || reply.Responded()
    {
      hide Supervised, PassEnabled, HostEnabled, WatchEnabled, Reaches;
      reply := NextReply();
      var gone := Gone(Client);
      ghost var before := State();
      MarkAnswered(reply, !gone);
      Note(before, Writes(LogoutAsked(reply, !gone)));
    }

    method ReportLogout(failure: Option<string>)
      requires Operating() && record.session.state == Mirror(LoggedOut)
      modifies `record, `books, `log
      ensures Operating() && log == old(log) + [Writes(LogoutReported(failure))]
      ensures record == Written(old(record), LogoutReported(failure))
    {
      ghost var before := State();
      var session := record.session.(sso := SsoUnknown);
      if failure.None? { session := session.(sso := SsoExpired); } else { session := session.(error := failure.value); }
      record := record.(session := session.(stale := failure.Some?));
      Note(before, Writes(LogoutReported(failure)));
    }

    method EnsureAuthenticated() returns (ok: bool)
      requires Quiet()
      modifies `record, `watch, `own, `clock, `outside, `pass, `books, `log
      ensures Quiet() && old(log) <= log && (ok <==> record.session.ready)
      ensures own == old(own) && record.session.desired == old(record).session.desired
      ensures old(Unanswered()) && old(outside).patience > 0 && record.session.desired == Connected ==>
        watch == old(watch) && record.lifecycle == old(record).lifecycle && !record.session.processOnline
    {
      hide Operating, Installation.ProgramTrees.Valid, Shaken, Intended, SessionProtocol.SetLifecycle, Clear,
           Invalidated;
      RefreshSession(Client, None, false, false);
      ok := record.session.ready;
    }

    // ---------- upgrade and rollback ----------

    /** A live program tree, complete or not, is about to be exchanged; a complete one was checked to be idle. */
    method BeginExchange()
      requires Operating() && HoldsInstall(own) && own.idle && HoldsLock(own)
      modifies `books, `log
      ensures Operating() && log == old(log) + (if Installation.Live in program.disk then [Hosts(ProgramRenamed)]
        else [])
      ensures Exchanges(log) == Exchanges(old(log)) + if Installation.Live in program.disk then 1 else 0
    {
      if Installation.Live in program.disk {
        Note(State(), Hosts(ProgramRenamed));
        assert log[..|log| - 1] == old(log);
      }
    }

    lemma ReadyToExchange()
      requires Reserved()
      ensures Legal(origin, log) && Replay(origin, log) == State() && Enabled(State(), Hosts(ProgramRenamed))
    {
      hide Reaches;
      ReachesReplays(origin, log, State());
    }

    /** Announce and exchange the live tree with the rollback. */
    method ExchangeTrees() returns (ok: bool, exchanged: bool)
      requires Reserved() && program.Valid()
      modifies `books, `log, program
      ensures Reserved() && program.Valid() && Swapping(old(program.disk), program.disk, ok, exchanged)
      ensures log == old(log) + (if Installation.Live in old(program.disk) then [Hosts(ProgramRenamed)] else [])
      ensures old(program.faults) == [] ==> program.faults == [] && !(exchanged && !ok)
      ensures old(program.faults) == [] ==>
        ok == (Installation.Live in old(program.disk) && Installation.Installed(old(program.disk), Installation.Backup))
      ensures old(program.faults) == [] && !ok && Installation.Live in old(program.disk) ==>
        Installation.Live in program.disk
      ensures exchanged <==>
        Exchangeable(old(program.disk)) && WayBack(Trial(old(program.disk), old(program.faults)))
      ensures ok <==>
        Exchangeable(old(program.disk))
        && Installation.Works(old(program.faults), Installation.Copies(old(program.disk)) + 4)
      ensures Installation.Live in old(program.disk) && Installation.Live !in program.disk <==>
        Exchangeable(old(program.disk)) && Stranding(old(program.faults), Installation.Copies(old(program.disk)))
      ensures Installation.SwapLeaves(old(program.faults), program.faults, Installation.Copies(old(program.disk)),
        Exchangeable(old(program.disk)), ok, exchanged)
      ensures Announced(old(program.displaced), old(log), program.displaced, log)
    {
      hide Operating, Installation.SwapLeaves, Installation.Works, Installation.Copies;
      FourMore(program.faults, Installation.Copies(program.disk));
      BeginExchange();
      ok, exchanged := program.Swap();
    }

    /** The locks every exchange of program trees needs: nobody else can start, and nobody else runs. */
    method Reserve() returns (ok: bool)
      requires Quiet()
      modifies `record, `watch, `own, `clock, `outside, `books, `log, `faults
      ensures Operating() && old(log) <= log
      ensures own.config == old(own).config && own.disk == old(own).disk
      ensures record.session.desired == old(record).session.desired
      ensures if ok then HoldsInstall(own) && own.idle && HoldsLock(own) else own.installLock.None?
      ensures ok ==> own.inspected == Installation.Installed(program.disk, Installation.Live)
      ensures old(faults) == [] ==> faults == [] && ok && (!own.inspected ==> books.contacts == old(books).contacts)
    {
      hide Operating, Shaken, StirredWatch, SessionProtocol.SetLifecycle, Installation.Installed;
      ok := LockInstallation();
      if !ok { return; }
      ok := CheckInstallationIdle();
      if ok {
        ok := AcquireProcessLock();
        if !ok { ok := FailLifecycle("exchange"); }
      }
      if !ok { UnlockInstallation(); }
    }

    /** Halt what runs before the trees are exchanged. */
    method Quiesce() returns (ok: bool)
      requires Reserved()
      modifies `record, `watch, `own, `clock, `outside, `pass, `books, `log, `faults
      ensures Reserved() && old(log) <= log && own == old(own) && record.session.desired == old(record).session.desired
      ensures old(faults) == [] ==> faults == [] && ok && books.contacts == old(books).contacts
      ensures ok ==> !record.session.processOnline
    {
      hide Operating, Shaken, SessionProtocol.SetLifecycle;
      CancelMonitoring();
      ok := StopProcess();
      if !ok { ok := FailLifecycle("stop"); }
    }

    ghost predicate Reserved()
      reads `record, `watch, `own, `busy, `clock, `pass, `books, `log
    {
      Operating() && HoldsInstall(own) && own.idle && HoldsLock(own)
    }

    /** Start the new version, or settle if the operator wants it stopped. */
    method TryVersion() returns (ok: bool)
      requires Reserved() && program.Valid()
      modifies `record, `watch, `own, `clock, `outside, `pass, `books, `log, program, `faults, `downloads
      ensures Reserved() && old(log) <= log && own == old(own) && record.session.desired == old(record).session.desired
      ensures program.Valid() && SameProgram(old(program.disk), program.disk)
        && (old(program.faults) == [] ==> program.faults == [])
      ensures Installation.LeftOver(old(program.faults), program.faults)
      ensures ok ==> if record.session.desired == Stopped then record.lifecycle == IsStopped else Outcome(true, true)
      ensures old(Smooth()) ==> ok && Smooth()
      ensures program.displaced == old(program.displaced)
    {
      hide Operating, SameProgram, SessionProtocol.SetLifecycle, Clear, Installation.LeftOver;
      Installation.LeavesLater(program.faults, 0);
      if record.session.desired == Stopped {
        SameProgramReflexive(program.disk);
        ClearSession(Mirror(Stopped));
        SetLifecycle(IsStopped, "");
        return true;
      }
      ok := StartWithInstallationLock(true);
    }

    /** The new version did not start: exchange the trees back and start the previous one. This succeeds exactly if
        the previous version is complete and the copies and renames of the way back work; if not, it stays the
        rollback. */
    method GoBack() returns (back: bool, restarted: bool)
      requires Reserved() && program.Valid()
      modifies `record, `watch, `own, `clock, `outside, `pass, `books, `log, program, `faults, `downloads
      ensures Reserved() && old(log) <= log && own == old(own) && record.session.desired == old(record).session.desired
      ensures program.Valid() && (back ==> WentBack(old(program.disk), program.disk))
      ensures back <==>
        Exchangeable(old(program.disk)) && WayBack(Trial(old(program.disk), old(program.faults)))
      ensures Installation.LeftOver(old(program.faults), program.faults)
      ensures back ==>
        Installation.LeftOver(Installation.Later(old(program.faults), Installation.Copies(old(program.disk)) + 2),
          program.faults)
      ensures !back && Exchangeable(old(program.disk)) ==>
        Installation.FailedLast(old(program.faults), program.faults)
      ensures Installation.Live in old(program.disk) ==>
        Retained(program.disk, old(program.disk)[Installation.Live])
      ensures !back && Installation.Backup in old(program.disk) ==>
        Installation.Keeps(program.disk, Installation.Backup, old(program.disk)[Installation.Backup])
      ensures Announced(old(program.displaced), old(log), program.displaced, log)
    {
      hide Operating, SameProgram, WayBack, Retained, Exchangeable, Stranding, Announced, Installation.Keeps,
           Installation.Installed, Installation.Works, Installation.Later, Installation.LeftOver,
           Installation.FailedLast, Installation.SwapLeaves, Installation.Copies;
      ghost var was := program.disk;
      var _ := StopProcess();
      NothingDisplaced(program.displaced, old(log), log);
      ghost var d0, log0 := program.displaced, log;
      var swapped, exchanged := ExchangeTrees();
      AnnouncedTogether(d0, old(log), d0, log0, program.displaced, log);
      ghost var d1, log1 := program.displaced, log;
      back, restarted := exchanged, false;
      ghost var between, middle := program.disk, program.faults;
      Installation.LeavesLater(middle, 0);
      SameProgramReflexive(between);
      if swapped { restarted := StartWithInstallationLock(true); }
      NothingDisplaced(d1, log1, log);
      AnnouncedTogether(d0, old(log), d1, log1, program.displaced, log);
      SwapKeeps(was, between, program.disk, swapped, exchanged);
      SwapThenStart(old(program.faults), middle, program.faults, Installation.Copies(was), Exchangeable(was), swapped,
        exchanged);
      if back { SwapWentBack(was, between, program.disk); }
    }

    /** Upgrade: install the pinned release, and go back if it does not start. */
    method Upgrade() returns (change: Change)
      requires Quiet()
      modifies `record, `watch, `own, `clock, `outside, `pass, `books, `log, program, `faults, `downloads
      ensures Quiet() && old(log) <= log && record.session.desired == old(record).session.desired
      ensures own.config == old(own).config && own.disk == old(own).disk
      ensures Upgraded(old(program.disk), program.disk, release, change)
      ensures change == Active && record.session.desired != Stopped ==> Outcome(true, true)
      ensures change != Declined ==>
        UpgradeCourse(old(program.disk), own.config.configFile, Offer(old(downloads)), old(program.faults),
          program.faults, change)
      ensures old(Smooth()) ==> change != Declined
      ensures old(Smooth()) && Offered(old(downloads)) ==> change == Active
      ensures Announced(old(program.displaced), old(log), program.displaced, log)
    {
      hide Operating, Upgraded, Announced, UpgradeCourse, SameProgram, Installation.Installed;
      var reserved := Reserve();
      UpgradeRefused(program.disk, release);
      NothingDisplaced(program.displaced, old(log), log);
      change := Declined;
      if !reserved { return; }
      ghost var d, log0 := program.displaced, log;
      change := UpgradeIdle();
      ghost var log1 := log;
      UnlockInstallation();
      Framed(d, old(log), log0, program.displaced, log1, log);
    }

    method UpgradeIdle() returns (change: Change)
      requires Reserved() && program.Valid()
      modifies `record, `watch, `own, `clock, `outside, `pass, `books, `log, program, `faults, `downloads
      ensures Reserved() && old(log) <= log && own == old(own) && record.session.desired == old(record).session.desired
      ensures program.Valid() && Upgraded(old(program.disk), program.disk, release, change)
      ensures change == Active && record.session.desired != Stopped ==> Outcome(true, true)
      ensures change != Declined ==>
        UpgradeCourse(old(program.disk), own.config.configFile, Offer(old(downloads)), old(program.faults),
          program.faults, change)
      ensures old(Smooth()) ==> change != Declined
      ensures old(Smooth()) && Offered(old(downloads)) ==> change == Active
      ensures Announced(old(program.displaced), old(log), program.displaced, log)
    {
      hide Operating, Upgraded, Announced, UpgradeCourse, SameProgram, Outcome, Installation.Installed,
           SessionProtocol.SetLifecycle;
      SetLifecycle(IsUpgrading, "");
      var wasRunning := Fault();
      if wasRunning { NoteOnline(); }
      var halted := Quiesce();
      NothingDisplaced(program.displaced, old(log), log);
      UpgradeRefused(program.disk, release);
      change := Declined;
      if !halted { return; }
      ghost var d, log0 := program.displaced, log;
      change := UpgradeReserved(wasRunning);
      AnnouncedTogether(d, old(log), d, log0, program.displaced, log);
    }

    method UpgradeReserved(wasRunning: bool) returns (change: Change)
      requires Reserved() && program.Valid() && !record.session.processOnline
      modifies `record, `watch, `own, `clock, `outside, `pass, `books, `log, program, `faults, `downloads
      ensures Reserved() && old(log) <= log && own == old(own) && record.session.desired == old(record).session.desired
      ensures program.Valid() && Upgraded(old(program.disk), program.disk, release, change)
      ensures change == Active && record.session.desired != Stopped ==> Outcome(true, true)
      ensures change != Declined ==>
        UpgradeCourse(old(program.disk), own.config.configFile, Offer(old(downloads)), old(program.faults),
          program.faults, change)
      ensures change != Declined
      ensures old(Smooth()) && Offered(old(downloads)) ==> change == Active
      ensures Announced(old(program.displaced), old(log), program.displaced, log)
    {
      hide Operating, SameProgram, Outcome, Upgraded, Announced, UpgradeCourse, Installation.Installed;
      var staged := NextDownload();
      NothingDisplaced(program.displaced, old(log), log);
      ghost var d, log0 := program.displaced, log;
      change := InstallAndSettle(staged, wasRunning);
      AnnouncedTogether(d, old(log), d, log0, program.displaced, log);
    }

    /** Exchange the download in and try it; where the exchange already failed, start again what ran before. */
    method InstallAndSettle(staged: Option<Installation.Release>, wasRunning: bool)
      returns (change: Change)
      requires Reserved() && program.Valid()
      modifies `record, `watch, `own, `clock, `outside, `pass, `books, `log, program, `faults, `downloads
      ensures Reserved() && old(log) <= log && own == old(own) && record.session.desired == old(record).session.desired
      ensures program.Valid() && Upgraded(old(program.disk), program.disk, release, change)
      ensures change == Active && record.session.desired != Stopped ==> Outcome(true, true)
      ensures UpgradeCourse(old(program.disk), own.config.configFile, staged, old(program.faults), program.faults,
        change)
      ensures change != Declined
      ensures old(Smooth()) && staged.Some? && Installation.Complete(staged.value) ==>
        Installation.Installed(old(program.disk), Installation.Live) ==> change == Active
      ensures Announced(old(program.displaced), old(log), program.displaced, log)
    {
      hide Operating, SameProgram, Outcome, Resumed, Exchanged, Upgraded, Announced, UpgradeCourse, Settled,
           Installation.Installed, Installation.Released, SessionProtocol.SetLifecycle;
      ghost var was, faults0, file := program.disk, program.faults, own.config.configFile;
      var done, restored := InstallNew(staged);
      ghost var middle := program.faults;
      ghost var installed, d, log0 := program.disk, program.displaced, log;
      if !done {
        AbortUpgrade(wasRunning);
        NothingDisplaced(d, log0, log);
        if restored {
          AbortResumed(was, installed, program.disk);
        } else if Installation.Live in was {
          RollbackStays(installed, program.disk, was[Installation.Live]);
        }
        change := if restored then Aborted else Stuck;
        AbortedUpgrade(was, file, staged, faults0, middle, program.faults, restored);
      } else {
        var restarted;
        ghost var trial;
        change, restarted, trial := Settle(was);
        SettledUpgrade(was, file, staged, faults0, middle, program.faults, restored, change, trial);
        ghost var d1, log1 := program.displaced, log;
        if change != Active { ReportReturn(restarted); }
        Framed(d, log0, log0, d1, log1, log);
      }
      AnnouncedTogether(old(program.displaced), old(log), d, log0, program.displaced, log);
      NowUpgraded(was, installed, program.disk, release, change);
    }

    method ReportReturn(restarted: bool)
      requires Reserved()
      modifies `record, `clock, `outside, `books, `log
      ensures Reserved() && old(log) <= log && record.session.desired == old(record).session.desired
      ensures record.lifecycle == if restarted then IsRunning else IsError
    {
      hide Operating, SessionProtocol.SetLifecycle;
      if restarted {
        SetLifecycle(IsRunning, "upgrade failed and previous gateway was restored");
      } else {
        var _ := FailLifecycle("upgrade");
      }
    }

    method InstallNew(staged: Option<Installation.Release>) returns (done: bool, restored: bool)
      requires Reserved() && program.Valid()
      modifies `books, `log, program
      ensures Reserved() && old(log) <= log && program.Valid()
      ensures done ==>
        Exchanged(old(program.disk), program.disk) && Installation.Installed(program.disk, Installation.Live)
      ensures done ==> program.disk[Installation.Live].version == release
      ensures !done && restored && Installation.Live in old(program.disk) ==>
        Installation.Holds(program.disk, Installation.Live, old(program.disk)[Installation.Live])
      ensures !done && !restored && Installation.Live in old(program.disk) ==>
        Installation.Holds(program.disk, Installation.Backup, old(program.disk)[Installation.Live])
      ensures Installation.Released(old(program.disk), own.config.configFile, staged, old(program.faults),
        program.faults, done, restored)
      ensures old(program.faults) == [] ==> program.faults == [] && restored
      ensures old(program.faults) == [] && staged.Some? && Installation.Complete(staged.value) ==>
        Installation.Installed(old(program.disk), Installation.Live) ==> done
      ensures Announced(old(program.displaced), old(log), program.displaced, log)
    {
      hide Operating, Installation.Released;
      BeginExchange();
      done, restored := program.InstallRelease(staged, release, own.config.configFile);
    }

    /** The installation failed; what ran before is started again. */
    method AbortUpgrade(wasRunning: bool)
      requires Reserved() && program.Valid()
      modifies `record, `watch, `own, `clock, `outside, `pass, `books, `log, program, `faults, `downloads
      ensures Reserved() && old(log) <= log && own == old(own) && record.session.desired == old(record).session.desired
      ensures program.Valid() && SameProgram(old(program.disk), program.disk)
      ensures program.displaced == old(program.displaced)
    {
      hide Operating, SameProgram, Outcome, SessionProtocol.SetLifecycle;
      SameProgramReflexive(program.disk);
      if wasRunning { var _ := StartWithInstallationLock(true); }
      var _ := FailLifecycle("upgrade");
    }

    /** Start the version just exchanged in, or exchange it out again. `trial` is the moment after a failed start. */
    method Settle(ghost was: Installation.Disk) returns (change: Change, restarted: bool, ghost trial: Trial)
      requires Reserved() && program.Valid() && Exchanged(was, program.disk)
      modifies `record, `watch, `own, `clock, `outside, `pass, `books, `log, program, `faults, `downloads
      ensures Reserved() && old(log) <= log && own == old(own) && record.session.desired == old(record).session.desired
      ensures program.Valid() && change in {Active, Reverted, Stuck}
      ensures change == Active ==> SameProgram(old(program.disk), program.disk) && Exchanged(was, program.disk)
      ensures change == Active && record.session.desired != Stopped ==> Outcome(true, true)
      ensures change == Reverted ==> Resumed(was, program.disk)
      ensures SameProgram(old(program.disk), trial.disk) && Exchanged(was, trial.disk)
      ensures Settled(was, old(program.faults), program.faults, change, trial)
      ensures change == Stuck && Installation.Live in was ==>
        Installation.Keeps(program.disk, Installation.Backup, was[Installation.Live])
      ensures change != Active ==>
        Installation.Live in old(program.disk) && Retained(program.disk, old(program.disk)[Installation.Live])
      ensures old(Smooth()) ==> change == Active
      ensures Announced(old(program.displaced), old(log), program.displaced, log)
    {
      hide Operating, SameProgram, Outcome, WentBack, Resumed, WayBack, Retained, Announced, Installation.YamlKept,
           Installation.LeftOver, Installation.FailedLast, Installation.Later;
      ghost var installed := program.disk;
      var started := TryVersion();
      restarted := false;
      ghost var tried := program.disk;
      trial := Trial(tried, program.faults);
      NothingDisplaced(program.displaced, old(log), log);
      ghost var log0 := log;
      StillExchanged(was, installed, tried);
      Installation.LeavesLater(program.faults, 0);
      if started { return Active, false, trial; }
      var back, again := GoBack();
      AnnouncedTogether(old(program.displaced), old(log), old(program.displaced), log0, program.displaced, log);
      restarted := again;
      if back { RoundTrip(was, tried, program.disk); }
      TriedKept(installed, tried, program.disk);
      change := if back then Reverted else Stuck;
    }

    /** Rollback: exchange the live tree with the rollback, and go back if the rollback does not start. A live tree
        that is not complete was not inspected. */
    method Rollback() returns (change: Change)
      requires Quiet()
      modifies `record, `watch, `own, `clock, `outside, `pass, `books, `log, program, `faults, `downloads
      ensures Quiet() && old(log) <= log && record.session.desired == old(record).session.desired
      ensures own.config == old(own).config && own.disk == old(own).disk
      ensures RolledBack(old(program.disk), program.disk, change)
      ensures change == Active && record.session.desired != Stopped ==> Outcome(true, true)
      ensures change != Declined ==>
        RollbackCourse(old(program.disk), old(program.faults), program.faults, change)
      ensures old(Swappable()) ==> change == Active
      ensures old(Swappable()) ==>
        Exchanging(origin, log, |old(log)|,
                   Exchange(own.config, Installation.Installed(old(program.disk), Installation.Live),
                     old(books).contacts))
      ensures Announced(old(program.displaced), old(log), program.displaced, log)
    {
      hide Operating, RolledBack, Announced, RollbackCourse, SameProgram, Exchanging, Installation.Installed;
      var reserved := Reserve();
      RollbackRefused(program.disk);
      NothingDisplaced(program.displaced, old(log), log);
      change := Declined;
      if !reserved { return; }
      ghost var d, log0, how := program.displaced, log, Exchange(own.config, own.inspected, books.contacts);
      change := RollbackIdle();
      ghost var log1 := log;
      UnlockInstallation();
      Framed(d, old(log), log0, program.displaced, log1, log);
      if old(Swappable()) {
        StillExchanging(origin, log1, log, |log0|, |old(log)|, how, old(books).contacts);
      }
    }

    method RollbackIdle() returns (change: Change)
      requires Reserved() && program.Valid()
      modifies `record, `watch, `own, `clock, `outside, `pass, `books, `log, program, `faults, `downloads
      ensures Reserved() && old(log) <= log && own == old(own) && record.session.desired == old(record).session.desired
      ensures program.Valid() && RolledBack(old(program.disk), program.disk, change)
      ensures change == Active && record.session.desired != Stopped ==> Outcome(true, true)
      ensures change != Declined ==>
        RollbackCourse(old(program.disk), old(program.faults), program.faults, change)
      ensures old(Swappable()) ==>
        change == Active && Exchanging(origin, log, |old(log)|,
        Exchange(own.config, own.inspected, old(books).contacts))
      ensures Announced(old(program.displaced), old(log), program.displaced, log)
    {
      hide Operating, RolledBack, Announced, RollbackCourse, SameProgram, Outcome, Legal, Replay, Exchanging,
           Enabled, Installation.Installed, SessionProtocol.SetLifecycle;
      SetLifecycle(IsRollingBack, "");
      var halted := Quiesce();
      NothingDisplaced(program.displaced, old(log), log);
      RollbackRefused(program.disk);
      change := Declined;
      if !halted { return; }
      ghost var d, log0 := program.displaced, log;
      ReadyToExchange();
      change := RollbackReserved();
      AnnouncedTogether(d, old(log), d, log0, program.displaced, log);
      if old(Swappable()) { NowExchanging(origin, log0, log, |old(log)|,
        Exchange(own.config, own.inspected, old(books).contacts)); }
    }

    method RollbackReserved() returns (change: Change)
      requires Reserved() && program.Valid() && !record.session.processOnline
      modifies `record, `watch, `own, `clock, `outside, `pass, `books, `log, program, `faults, `downloads
      ensures Reserved() && old(log) <= log && own == old(own) && record.session.desired == old(record).session.desired
      ensures program.Valid() && RolledBack(old(program.disk), program.disk, change)
      ensures change == Active && record.session.desired != Stopped ==> Outcome(true, true)
      ensures change != Declined ==>
        RollbackCourse(old(program.disk), old(program.faults), program.faults, change)
      ensures old(Swappable()) ==> change == Active
      ensures Installation.Live in old(program.disk) ==> |old(log)| < |log| && log[|old(log)|] == Hosts(ProgramRenamed)
      ensures Announced(old(program.displaced), old(log), program.displaced, log)
    {
      hide Operating, SameProgram, Outcome, Resumed, Announced, RolledBack, Exchanged, RollbackCourse, WayBack,
           Settled, Installation.Installed, Installation.Works, Installation.SwapLeaves;
      ghost var was, faults0 := program.disk, program.faults;
      var hadLive := Installation.Live in program.disk;
      var swapped, exchanged := ExchangeTrees();
      ghost var d, log0 := program.displaced, log;
      if swapped {
        SwapIsOver(was, faults0, program.faults);
        ghost var middle := program.faults;
        ghost var trial;
        change, trial := FinishRollback(was);
        SettledRollback(was, faults0, middle, program.faults, change, trial);
      } else {
        change := RefuseRollback(was, hadLive, exchanged);
        WayBackMeans(was, faults0);
        RefusedRollback(was, faults0, program.faults, Installation.Live in program.disk, exchanged);
      }
      AnnouncedTogether(old(program.displaced), old(log), d, log0, program.displaced, log);
    }

    /** The swap did not complete; in every case the lifecycle says so. */
    method RefuseRollback(ghost was: Installation.Disk, hadLive: bool, exchanged: bool) returns (change: Change)
      requires hadLive == (Installation.Live in was)
      requires Reserved() && program.Valid() && Swapping(was, program.disk, false, exchanged)
      requires Installation.Live in was && Installation.Live !in program.disk ==>
        Installation.Installed(was, Installation.Backup)
      modifies `record, `clock, `outside, `books, `log
      ensures Reserved() && old(log) <= log && record.session.desired == old(record).session.desired
      ensures RolledBack(was, program.disk, change)
      ensures change ==
        if exchanged then Unfinished else if Installation.Live in program.disk || !hadLive then Aborted else Stuck
      ensures Announced(program.displaced, old(log), program.displaced, log)
    {
      hide Operating, SameProgram, Announced, Installation.YamlKept, SessionProtocol.SetLifecycle;
      var _ := FailLifecycle("rollback");
      NothingDisplaced(program.displaced, old(log), log);
      SameProgramReflexive(program.disk);
      change :=
        if exchanged then Unfinished else if Installation.Live in program.disk || !hadLive then Aborted else Stuck;
      if exchanged { SwapWentBack(was, program.disk, program.disk); }
      if change == Aborted { AbortResumed(was, program.disk, program.disk); }
    }

    /** The rollback's version is live: start it, or exchange it out again. */
    method FinishRollback(ghost was: Installation.Disk) returns (change: Change, ghost trial: Trial)
      requires Reserved() && program.Valid() && Swapping(was, program.disk, true, true)
      modifies `record, `watch, `own, `clock, `outside, `pass, `books, `log, program, `faults, `downloads
      ensures Reserved() && old(log) <= log && own == old(own) && record.session.desired == old(record).session.desired
      ensures program.Valid() && RolledBack(was, program.disk, change)
      ensures change == Active && record.session.desired != Stopped ==> Outcome(true, true)
      ensures change in {Active, Reverted, Stuck} && Settled(was, old(program.faults), program.faults, change, trial)
      ensures old(Smooth()) ==> change == Active
      ensures Announced(old(program.displaced), old(log), program.displaced, log)
    {
      hide Operating, SameProgram, Outcome, Resumed, Announced, Settled, Retained, Installation.YamlKept,
           SessionProtocol.SetLifecycle;
      ghost var installed := program.disk;
      SwapKeepsYaml(was, installed);
      var restarted;
      change, restarted, trial := Settle(was);
      ghost var d, log0 := program.displaced, log;
      if change == Active {
        SwapWentBack(was, installed, program.disk);
      } else {
        var _ := FailLifecycle("rollback");
        SameRetained(program.disk, installed[Installation.Live], was[Installation.Backup]);
      }
      Framed(old(program.displaced), old(log), old(log), d, log0, log);
    }
  }
}
