/** The gateway manager as a labelled transition system.

    One event is one critical section of GatewayManager.mu, or one effect on the
    host (a lock, a file, a process, a rename). `Enabled` says when the manager may
    take it, `Apply` what it does to the manager. GatewayManager.dfy proves that the
    operations emit nothing else; the theorems are about every sequence of events. */
module SessionProtocol {
  import opened Basics
  import opened LoginInitialization
  import opened RestartBudget

  // ---------- session_state.go ----------

  datatype Intent = Connected | LoggedOut | Stopped

  // session_state may also mirror the operator's intent ("logged_out", "stopped").
  datatype SessionState = Unknown | Ready | Recovering | Initializing | LoginRequired | Competing
                        | TakeoverRequired | Mirror(intent: Intent)

  datatype SsoState = SsoUnknown | SsoValid | SsoExpired

  datatype Lifecycle = IsStopped | IsDetached | IsInstalling | IsStarting | IsAuthRequired | IsRunning
                     | IsStopping | IsRestarting | IsUpgrading | IsRollingBack | IsError

  datatype SessionSnapshot = SessionSnapshot(
    desired: Intent, processOnline: bool, sso: SsoState, state: SessionState, ready: bool,
    generation: Option<int>, connected: bool, established: bool, competing: bool,
    lastCheckedAt: Option<int>, lastTickleAt: Option<int>, nextRetryAt: Option<int>,
    retryCount: nat, error: string, stale: bool)

  // ---------- replies ----------

  datatype BrokerageAuth = BrokerageAuth(authenticated: bool, connected: bool, established: bool,
                                         competing: bool, failure: string)
  {
    predicate IsReady() {
      authenticated && connected && established && !competing && failure == ""
    }
  }

  const NO_AUTH: BrokerageAuth := BrokerageAuth(false, false, false, false, "")
  const FORCE_COMPETE_FAILURE := "Force compete capability must be used together with compete flag"
  const UNAUTHORIZED_MESSAGE := "IBKR returned HTTP 401"
  const BUDGET_MESSAGE := "IBKR login initialization stopped: time or retry limit reached"
  const RESTART_LIMIT_MESSAGE := "local gateway restart limit reached; retrying after cooldown"

  function Lower(c: char): char {
    if 'A' <= c <= 'Z' then ((c as int) + 32) as char else c
  }

  function Trimmed(s: string): string {
    if s == "" then s
    else if s[0] in {' ', '\t', '\n', '\r'} then Trimmed(s[1..])
    else if s[|s| - 1] in {' ', '\t', '\n', '\r'} then Trimmed(s[..|s| - 1])
    else s
  }

  /** The same text but for surrounding space and the case of letters. */
  predicate SameText(a: string, b: string) {
    var t := Trimmed(a);
    |t| == |b| && forall i | 0 <= i < |b| :: Lower(t[i]) == Lower(b[i])
  }

  /** The brokerage refuses because it was forced without being allowed to. */
  predicate ForceCompeteRefused(failure: string) {
    SameText(failure, FORCE_COMPETE_FAILURE)
  }

  // Dial is a local transport failure; BadResponse an answer other than 200 and 401, or not JSON.
  datatype FailureKind = Dial | OtherTransport | BadResponse

  // result is the boolean of /sso/validate or /logout, when the body has one.
  datatype Reply =
    | Unauthorized
    | Failed(kind: FailureKind, message: string)
    | Answered(auth: BrokerageAuth, result: Option<bool>)
  {
    predicate Responded() {
      Failed? ==> kind == BadResponse
    }
    function Auth(): BrokerageAuth {
      if Answered? then auth else NO_AUTH
    }
    predicate Rejected() {
      Unauthorized? || (Answered? && result == Some(false))
    }
    predicate Confirmed() {
      Answered? && result == Some(true)
    }
  }

  datatype Request = Tickle | AuthStatus | SsoValidate | Initialize(compete: bool)

  // ---------- one refresh pass ----------

  // What observe publishes.
  datatype Verdict = Verdict(state: SessionState, sso: SsoState, auth: BrokerageAuth,
                             error: Option<string>, tickled: bool)

  datatype Pass =
    | NoPass
    | Pass(supervisor: Option<nat>, recover: bool, compete: bool, pending: bool,
           tickle: Option<Reply>, noted: bool, status: Option<Reply>, sso: Option<Reply>,
           permission: Option<Permission>, previousError: string, init: Option<Reply>,
           outcome: Option<Reply>, recheck: Option<Reply>, retrying: Option<bool>)

  function NewPass(supervisor: Option<nat>, recover: bool, compete: bool, pending: bool): Pass {
    Pass(supervisor, recover, compete, pending, None, false, None, None, None, "", None, None, None, None)
  }

  datatype Action = Ask(request: Request) | NoteProbe | MarkAlive | TryPermission | CheckRetry
                  | Report(verdict: Verdict)

  /** The brokerage status a pass goes by: /auth/status when it answered, else the tickle's. */
  function Brokerage(p: Pass): BrokerageAuth
    requires p.Pass? && p.tickle.Some?
  {
    if p.status.Some? && p.status.value.Answered? then p.status.value.auth else p.tickle.value.Auth()
  }

  /** The decision table of refreshSession: the only thing a pass may do next. */
  function NextAction(p: Pass): Action
    requires p.Pass?
  {
    match p.tickle
    case None => Ask(Tickle)
    case Some(tickle) =>
      if !p.noted then (if tickle.Failed? then NoteProbe else MarkAlive)
      else if tickle.Failed? then Report(Verdict(Unknown, SsoUnknown, NO_AUTH, Some(tickle.message), false))
      else if tickle.Answered? && !tickle.auth.IsReady() && p.status.None? then Ask(AuthStatus)
      else if p.status.Some? && p.status.value.Failed? then
        Report(Verdict(Unknown, SsoUnknown, tickle.Auth(), Some(p.status.value.message), tickle.Answered?))
      else AfterStatus(p, Brokerage(p), tickle.Answered?)
  }

  function AfterStatus(p: Pass, auth: BrokerageAuth, tickled: bool): Action
    requires p.Pass?
  {
    if auth.IsReady() then Report(Verdict(Ready, SsoValid, auth, None, tickled))
    else if auth.competing && !p.compete && !p.pending then Report(Verdict(Competing, SsoUnknown, auth, None, tickled))
    else match p.sso
      case None => Ask(SsoValidate)
      case Some(sso) =>
        if sso.Rejected() then Report(Verdict(LoginRequired, SsoExpired, auth, None, tickled))
        else if !sso.Confirmed() then
          Report(Verdict(Unknown, SsoUnknown, auth,
                         Some(if sso.Failed? then sso.message else "SSO validation missing boolean RESULT"), tickled))
        else if !p.recover || (auth.authenticated && !auth.competing && auth.failure == "") then
          Report(Verdict(Initializing, SsoValid, auth, None, tickled))
        else AfterSso(p, auth, tickled)
  }

  function AfterSso(p: Pass, auth: BrokerageAuth, tickled: bool): Action
    requires p.Pass?
  {
    match p.permission
    case None => TryPermission
    case Some(Denied) => Report(Verdict(TakeoverRequired, SsoValid, auth, Some(BUDGET_MESSAGE), tickled))
    case Some(Wait) => Report(Verdict(Initializing, SsoValid, auth,
                                      if p.previousError == "" then None else Some(p.previousError), tickled))
    case Some(_) =>
      match p.init
      case None => Ask(Initialize(p.compete || p.permission == Some(Granted)))
      case Some(Unauthorized) => AfterUnauthorized(p, auth, tickled)
      case Some(Failed(_, message)) => Report(Verdict(Recovering, SsoValid, auth, Some(message), tickled))
      case Some(Answered(initial, _)) =>
        if initial.failure != "" then AfterFailure(p, initial, tickled)
        else match p.outcome
          case None => Ask(AuthStatus)
          case Some(reply) =>
            var final := reply.Auth();
            if reply.Answered? && final.failure != "" then AfterFailure(p, final, tickled)
            else if reply.Unauthorized? then AfterUnauthorized(p, final, tickled)
            else Report(Verdict(
              if final.competing then Competing else if final.IsReady() then Ready else Recovering,
              SsoValid, final, if reply.Failed? then Some(reply.message) else None, tickled))
  }

  /** A brokerage 401 does not prove that the independent SSO session expired. */
  function AfterUnauthorized(p: Pass, auth: BrokerageAuth, tickled: bool): Action
    requires p.Pass?
  {
    match p.recheck
    case None => Ask(SsoValidate)
    case Some(check) =>
      if check.Rejected() then Report(Verdict(LoginRequired, SsoExpired, auth, Some(UNAUTHORIZED_MESSAGE), tickled))
      else if check.Confirmed() then Report(Verdict(Recovering, SsoValid, auth, Some(UNAUTHORIZED_MESSAGE), tickled))
      else Report(Verdict(Unknown, SsoUnknown, auth, Some(UNAUTHORIZED_MESSAGE), tickled))
  }

  function AfterFailure(p: Pass, auth: BrokerageAuth, tickled: bool): Action
    requires p.Pass?
  {
    match p.retrying
    case None => CheckRetry
    case Some(retrying) =>
      var state := if auth.competing && !retrying then Competing
                   else if !retrying && ForceCompeteRefused(auth.failure) then TakeoverRequired
                   else Recovering;
      Report(Verdict(state, SsoValid, auth, Some(auth.failure), tickled))
  }

  function Recorded(p: Pass, request: Request, reply: Reply): Pass {
    if p.NoPass? then p else match request
    case Tickle => p.(tickle := Some(reply))
    case AuthStatus => if p.init.None? then p.(status := Some(reply)) else p.(outcome := Some(reply))
    case SsoValidate => if p.sso.None? then p.(sso := Some(reply)) else p.(recheck := Some(reply))
    case Initialize(_) => p.(init := Some(reply))
  }

  // ---------- the manager ----------

  type Dir = string
  datatype Config = Config(stateDir: Dir, gatewayDir: Dir, configFile: string, port: int, persistent: bool,
    bundled: bool)

  // One Gateway instance as it is deployed, and a Java process, attached or detached, started for it.
  datatype Instance = Instance(program: Dir, configFile: string, port: int, stateDir: Dir)
  datatype Process = Process(pid: nat, instance: Instance)

  function InstanceOf(c: Config): Instance {
    Instance(c.gatewayDir, c.configFile, c.port, c.stateDir)
  }

  /** What recovery compares: command line, working directory and listening port, never the state directory. */
  predicate SameLooks(a: Instance, b: Instance) {
    a.program == b.program && a.configFile == b.configFile && a.port == b.port
  }

  /** gatewayProcessMatches and processListensOnPort: the manager takes this process for its own. */
  predicate Recoverable(c: Config, p: Process) {
    SameLooks(p.instance, InstanceOf(c))
  }

  // The session record every reader sees, guarded by mu.
  datatype Record = Record(
    session: SessionSnapshot, account: string, authenticatedAt: Option<int>, login: Login, localFailures: nat,
    restartAttempts: seq<int>, lifecycle: Lifecycle, lastError: string, stateUpdatedAt: int,
      intentError: Option<string>)

  // The supervisor goroutines, the contexts they run under, and the manager's own handle on them.
  // A sheltered context descends from Background or WithoutCancel: only the manager can cancel it.
  datatype Watch = Watch(
    ctx: Option<nat>, cancel: Option<nat>, monitorsStarted: bool, generation: nat,
    contexts: nat, supervisors: map<nat, nat>, cancelled: set<nat>, sheltered: set<nat>)

  // Locks held, and the intent file of each state directory as this manager left it; None is a damaged file.
  datatype Holdings = Holdings(
    config: Config, processLock: Option<Dir>, installLock: Option<Dir>, idle: bool, inspected: bool,
      disk: map<Dir, Option<Intent>>)

  // Kept for the theorems only: the current takeover permission, the automatic restarts, and counts of the
  // verdicts published and of the processes found, started or terminated.
  datatype Books = Books(armed: bool, begun: int, grants: seq<int>, sent: nat, restarts: seq<int>, verdicts: nat,
    contacts: nat)

  datatype Manager = Manager(record: Record, watch: Watch, own: Holdings, pass: Pass, clock: int, books: Books)

  /** What a manager that starts over these files takes the operator to want. */
  function SavedAs(disk: map<Dir, Option<Intent>>, dir: Dir): Intent {
    if dir !in disk then Connected else if disk[dir].None? then Stopped else disk[dir].value
  }

  function Saved(own: Holdings): Intent {
    SavedAs(own.disk, own.config.stateDir)
  }

  predicate Unreadable(own: Holdings) {
    own.config.stateDir in own.disk && own.disk[own.config.stateDir].None?
  }

  const INTENT_UNREADABLE := "read session intent"

  /** NewGatewayManager: the saved intent, connected when no file was ever written, stopped when it cannot be read. */
  function Started(config: Config, disk: map<Dir, Option<Intent>>, now: int): Manager {
    var own := Holdings(config, None, None, false, false, disk);
    var intent := Saved(own);
    var broken := Unreadable(own);
    var session := SessionSnapshot(intent, false, SsoUnknown, if intent == Connected
      || broken then Unknown else Mirror(intent),
                                   false, None, false, false, false, None, None, None, 0, "", false);
    Manager(Record(session, "", None, NO_LOGIN, 0, [], IsStopped, if broken then INTENT_UNREADABLE else "", now,
                   if broken then Some(INTENT_UNREADABLE) else None),
            Watch(None, None, false, 0, 0, map[], {}, {}), own, NoPass, now, Books(false, now, [], 0, [], 0, 0))
  }

  // Critical sections that write the session record outside a refresh pass.
  datatype Write =
    | IntentSet(intent: Intent)
    | Cleared(state: SessionState, now: int)
    | LifecycleSet(lifecycle: Lifecycle, error: string, now: int)
    | SessionReset
    | RetryReset
    | LoginBegun(takeover: bool, now: int)
    | LogoutAsked(reply: Reply, live: bool)
    | LogoutReported(failure: Option<string>)
    | WentOffline
    // A check outside the passes found somebody answering; nothing is written down.
    | OnlineSeen
    | RunningMarked
    | RestartChecked(now: int)
    | RestartReported(error: string)

  // The steps of one refresh pass. A reply is live when its context was not yet cancelled.
  datatype PassStep =
    | PassStarted(supervisor: Option<nat>, recover: bool, compete: bool)
    | Asked(request: Request, reply: Reply, live: bool)
    | ProbeNoted(dial: bool)
    | AliveMarked
    | PermissionTried(now: int)
    | RetryChecked(now: int)
    | Observed(verdict: Verdict, account: string, now: int)
    | PassAbandoned

  datatype WatchStep =
    | ContextMade(shelter: bool)
    | MonitoringCancelled
    | SupervisorStarted
    | SupervisorExited(generation: nat)
    | ContextCancelled(id: nat)

  // Effects on the host: locks, the intent file, the program directory, the Java process.
  datatype HostStep =
    | IntentSaved(dir: Dir, intent: Intent)
    | LockTried(dir: Dir, granted: bool)
    | LockReleased
    | ConfigSet(config: Config)
    | InstallTried(program: Dir, granted: bool)
    | InstallReleased
    // The idle check passed over the manager's own process, if it found one; without a complete
    // installation it passes uninspected.
    | IdleConfirmed(inspected: bool, found: Option<Process>)
    // An existing live tree is about to be exchanged.
    | ProgramRenamed
    | ProcessStarted(process: Process)
    // A killed process may take a moment to go.
    | ProcessTerminated(process: Process, gone: bool)

  datatype Event = Writes(write: Write) | Passes(step: PassStep) | Watches(watch: WatchStep) | Hosts(host: HostStep)

  predicate Uncancelled(w: Watch, generation: nat) {
    generation in w.supervisors && w.supervisors[generation] !in w.cancelled
  }

  predicate NoLiveSupervisor(w: Watch) {
    forall g | g in w.supervisors :: w.supervisors[g] in w.cancelled
  }

  predicate HoldsLock(own: Holdings) {
    own.processLock == Some(own.config.stateDir)
  }

  predicate HoldsInstall(own: Holdings) {
    own.installLock == Some(own.config.gatewayDir)
  }

  predicate Due(p: Pass, action: Action) {
    p.Pass? && NextAction(p) == action
  }

  predicate WriteEnabled(m: Manager, e: Write) {
    var s, own := m.record.session, m.own;
    match e
    case IntentSet(intent) => HoldsLock(own) && Saved(own) == intent
    case Cleared(state, now) => state != Ready && m.clock <= now
    case LifecycleSet(_, _, now) => m.clock <= now
    case LoginBegun(_, now) => HoldsLock(own) && s.desired == Connected && m.clock <= now
    case LogoutAsked(_, _) => HoldsLock(own) && s.desired == LoggedOut == Saved(own) && s.state == Mirror(LoggedOut)
    case LogoutReported(_) => s.state == Mirror(LoggedOut)
    case RunningMarked => HoldsLock(own)
    case RestartChecked(now) => HoldsLock(own) && s.desired == Connected && m.record.localFailures >= 3
      && m.clock <= now
    case _ => true
  }

  predicate PassEnabled(m: Manager, e: PassStep) {
    match e
    case PassStarted(supervisor, _, compete) =>
      && m.pass.NoPass? && m.record.session.desired == Connected && (compete ==> m.books.armed)
      && (supervisor.Some? ==> MayPass(m, supervisor.value))
    case Asked(request, _, _) => Due(m.pass, Ask(request))
    case ProbeNoted(dial) => Due(m.pass, NoteProbe) && (dial <==> m.pass.tickle.value.kind == Dial)
    case AliveMarked => Due(m.pass, MarkAlive)
    case PermissionTried(now) => Due(m.pass, TryPermission) && m.clock <= now
    case RetryChecked(now) => Due(m.pass, CheckRetry) && m.clock <= now
    case Observed(verdict, account, now) =>
      Due(m.pass, Report(verdict)) && (account != "" ==> verdict.state == Ready) && m.clock <= now
    case PassAbandoned => m.pass.Pass? && m.pass.noted
  }

  /** A supervisor may pass only while it is the current one, not cancelled, and the manager owns its directory. */
  predicate MayPass(m: Manager, supervisor: nat) {
    Uncancelled(m.watch, supervisor) && supervisor == m.watch.generation && HoldsLock(m.own)
  }

  predicate WatchEnabled(m: Manager, e: WatchStep) {
    var w := m.watch;
    match e
    case ContextMade(_) => !w.monitorsStarted && w.ctx.None? && HoldsLock(m.own)
    case MonitoringCancelled => true
    case SupervisorStarted => !w.monitorsStarted && w.ctx.Some? && HoldsLock(m.own)
    case SupervisorExited(g) =>
      && g in w.supervisors && (w.supervisors[g] in w.cancelled || g != w.generation)
      && (m.pass.Pass? ==> m.pass.supervisor != Some(g))
    case ContextCancelled(id) => id < w.contexts && id !in w.sheltered
  }

  predicate HostEnabled(w: Watch, own: Holdings, e: HostStep) {
    match e
    case IntentSaved(dir, _) => HoldsLock(own) && dir == own.config.stateDir
    case LockTried(dir, _) => own.processLock.None? && dir == own.config.stateDir
    case LockReleased => own.processLock.Some? && w.ctx.None? && NoLiveSupervisor(w)
    case ConfigSet(_) => own.processLock.None? && own.installLock.None?
    case InstallTried(program, _) => own.installLock.None? && program == own.config.gatewayDir
    case InstallReleased => own.installLock.Some?
    case IdleConfirmed(_, found) => HoldsInstall(own) && (found.Some? ==> Recoverable(own.config, found.value))
    case ProgramRenamed => HoldsInstall(own) && own.idle && HoldsLock(own)
    case ProcessStarted(p) => HoldsInstall(own) && HoldsLock(own) && p.instance == InstanceOf(own.config)
    case ProcessTerminated(p, _) => HoldsLock(own) && Recoverable(own.config, p)
  }

  /** Operations and passes exclude one another through opMu; these two steps take mu alone. */
  predicate Asynchronous(e: WatchStep) {
    e.SupervisorExited? || e.ContextCancelled?
  }

  /** When the manager may take an event. */
  predicate Enabled(m: Manager, e: Event) {
    match e
    case Writes(w) => m.pass.NoPass? && WriteEnabled(m, w)
    case Passes(p) => PassEnabled(m, p)
    case Watches(w) => (m.pass.NoPass? || Asynchronous(w)) && WatchEnabled(m, w)
    case Hosts(h) => m.pass.NoPass? && HostEnabled(m.watch, m.own, h)
  }

  // ---------- what an event does ----------

  /** The common way out of an observed ready session. */
  function Invalidated(r: Record, state: SessionState): Record {
    r.(login := NO_LOGIN, account := "", authenticatedAt := None,
       session := r.session.(state := state, sso := SsoUnknown, ready := false, connected := false,
                             established := false, competing := false, nextRetryAt := None))
  }

  function Clear(r: Record, state: SessionState, now: int): Record {
    var n := Invalidated(r, state);
    n.(stateUpdatedAt := now,
       session := n.session.(error := "", retryCount := 0, stale := false,
                             processOnline := r.session.processOnline && state != Mirror(Stopped)))
  }

  function SetLifecycle(r: Record, lifecycle: Lifecycle, error: string, now: int): Record {
    var n := if lifecycle == IsRunning || lifecycle == IsAuthRequired then r
             else Invalidated(r, if lifecycle == IsStopped
               || lifecycle == IsDetached then Mirror(Stopped) else Unknown);
    n.(lifecycle := lifecycle, lastError := error, stateUpdatedAt := now)
  }

  /** When the next attempt is due, for the operator to see. */
  function RetryPlan(login: Login, state: SessionState, retryCount: nat, now: int): (nat, Option<int>) {
    var count := if state in {Recovering, Unknown, Initializing} then retryCount + 1 else 0;
    if !login.Pending() then (count, if count == 0 then None else Some(now + RetryDelay(count)))
    else if !login.Active(now) then (login.attempts, None)
    else (login.attempts, Some(if Before(now, login.nextAttempt) then login.nextAttempt.value else now + 5 * SECOND))
  }

  function Observe(r: Record, v: Verdict, account: string, now: int): Record {
    var ready := v.state == Ready;
    var edge := ready && !r.session.ready;
    var plan := if ready then (0, None) else RetryPlan(r.login, v.state, r.session.retryCount, now);
    r.(login := if ready then NO_LOGIN else r.login,
       account := if ready then account else "",
       authenticatedAt := if edge then Some(now) else if ready then r.authenticatedAt else None,
       lifecycle := if v.state == LoginRequired then IsAuthRequired
                    else if r.session.processOnline then IsRunning else r.lifecycle,
       stateUpdatedAt := if r.session.state != v.state then now else r.stateUpdatedAt,
       session := r.session.(
         state := v.state, sso := v.sso, ready := ready,
         generation := if edge then Some(now) else r.session.generation,
         connected := v.auth.connected, established := v.auth.established, competing := v.auth.competing,
         lastCheckedAt := Some(now), lastTickleAt := if v.tickled then Some(now) else r.session.lastTickleAt,
         nextRetryAt := plan.1, retryCount := plan.0,
         error := if v.error.Some? then v.error.value else "", stale := v.error.Some?))
  }

  predicate RestartGranted(r: Record, now: int) {
    |Recent(r.restartAttempts, now)| < 3
  }

  function CheckRestart(r: Record, now: int): Record {
    var recent := Recent(r.restartAttempts, now);
    if RestartGranted(r, now) then r.(restartAttempts := recent + [now], localFailures := 0)
    else r.(restartAttempts := recent, session := r.session.(error := RESTART_LIMIT_MESSAGE))
  }

  /** The deferred exit of the current supervisor publishes that nothing is known any more. */
  predicate ExitInvalidates(w: Watch, desired: Intent, g: nat) {
    g == w.generation && g in w.supervisors && w.supervisors[g] in w.cancelled && desired == Connected
  }

  function Written(r: Record, e: Write): Record {
    match e
    case IntentSet(intent) => r.(session := r.session.(desired := intent), intentError := None,
                                 lastError := if r.intentError.Some? then "" else r.lastError)
    case Cleared(state, now) => Clear(r, state, now)
    case LifecycleSet(lifecycle, error, now) => SetLifecycle(r, lifecycle, error, now)
    case SessionReset => Invalidated(r, Unknown)
    case RetryReset => r.(session := r.session.(retryCount := 0))
    case LoginBegun(_, now) => r.(login := NewLogin(now))
    case LogoutAsked(reply, live) => Responded(r, reply, live)
    case LogoutReported(failure) =>
      r.(session := r.session.(sso := if failure.None? then SsoExpired else SsoUnknown, stale := failure.Some?,
                               error := if failure.Some? then failure.value else r.session.error))
    case WentOffline => r.(session := r.session.(processOnline := false))
    case OnlineSeen => r
    case RunningMarked => r.(session := r.session.(processOnline := true), lifecycle := IsRunning)
    case RestartChecked(now) => CheckRestart(r, now)
    case RestartReported(error) => r.(session := r.session.(error := error))
  }

  /** Any live answer, whatever it says, proves the process is there. */
  function Responded(r: Record, reply: Reply, live: bool): Record {
    r.(session := r.session.(processOnline := r.session.processOnline || (live && reply.Responded())))
  }

  function Passed(r: Record, e: PassStep): Record {
    match e
    case Asked(_, reply, live) => Responded(r, reply, live)
    case ProbeNoted(dial) =>
      if dial then r.(localFailures := r.localFailures + 1, session := r.session.(processOnline := false))
      else r.(localFailures := 0)
    case AliveMarked => r.(localFailures := 0, session := r.session.(processOnline := true))
    case PermissionTried(now) => r.(login := r.login.After(now))
    case Observed(verdict, account, now) => Observe(r, verdict, account, now)
    case _ => r
  }

  function Lost(r: Record): Record {
    var n := Invalidated(r, Unknown);
    n.(session := n.session.(stale := true))
  }

  function RecordAfter(m: Manager, e: Event): Record {
    match e
    case Writes(w) => Written(m.record, w)
    case Passes(p) => Passed(m.record, p)
    case Watches(w) =>
      if w.SupervisorExited? && ExitInvalidates(m.watch, m.record.session.desired, w.generation)
      then Lost(m.record) else m.record
    case Hosts(_) => m.record
  }

  function Watched(w: Watch, e: WatchStep): Watch {
    match e
    case ContextMade(shelter) =>
      w.(ctx := Some(w.contexts), cancel := Some(w.contexts), contexts := w.contexts + 1,
         sheltered := if shelter then w.sheltered + {w.contexts} else w.sheltered)
    case MonitoringCancelled =>
      w.(cancelled := if w.cancel.Some? then w.cancelled + {w.cancel.value} else w.cancelled,
         ctx := None, cancel := None, monitorsStarted := false, generation := w.generation + 1)
    case SupervisorStarted =>
      if w.ctx.None? then w
      else w.(monitorsStarted := true, generation := w.generation + 1,
              supervisors := w.supervisors[w.generation + 1 := w.ctx.value])
    case SupervisorExited(g) =>
      w.(supervisors := w.supervisors - {g}, monitorsStarted := w.monitorsStarted && g != w.generation)
    case ContextCancelled(id) => w.(cancelled := w.cancelled + {id})
  }

  function Held(own: Holdings, e: HostStep): Holdings {
    match e
    case IntentSaved(dir, intent) => own.(disk := own.disk[dir := Some(intent)])
    case LockTried(dir, granted) => if granted then own.(processLock := Some(dir)) else own
    case LockReleased => own.(processLock := None)
    case ConfigSet(config) => own.(config := config)
    case InstallTried(program, granted) => if granted then own.(installLock := Some(program), idle := false,
      inspected := false) else own
    case InstallReleased => own.(installLock := None, idle := false, inspected := false)
    case IdleConfirmed(inspected, _) => own.(idle := true, inspected := inspected)
    case _ => own
  }

  function Noted(p: Pass): Pass {
    if p.NoPass? then p else p.(noted := true)
  }

  function Permitted(p: Pass, answer: Permission, previousError: string): Pass {
    if p.NoPass? then p else p.(permission := Some(answer), previousError := previousError)
  }

  function Retrying(p: Pass, active: bool): Pass {
    if p.NoPass? then p else p.(retrying := Some(active))
  }

  function PassAfter(p: Pass, r: Record, e: PassStep): Pass {
    match e
    case PassStarted(supervisor, recover, compete) => NewPass(supervisor, recover, compete, r.login.Pending())
    case Asked(request, reply, _) => Recorded(p, request, reply)
    case ProbeNoted(_) => Noted(p)
    case AliveMarked => Noted(p)
    case PermissionTried(now) => Permitted(p, r.login.Answer(now), r.session.error)
    case RetryChecked(now) => Retrying(p, r.login.Active(now))
    case Observed(_, _, _) => NoPass
    case PassAbandoned => NoPass
  }

  /** A step that depends on what runs on the host, or changes it. */
  predicate Contacts(e: HostStep) {
    e.ProcessStarted? || e.ProcessTerminated? || (e.IdleConfirmed? && (e.inspected || e.found.Some?))
  }

  function BooksAfter(b: Books, r: Record, e: Event): Books {
    match e
    case Writes(LoginBegun(takeover, now)) => b.(armed := takeover, begun := now, grants := [], sent := 0)
    case Writes(RestartChecked(now)) =>
      b.(armed := false, restarts := if RestartGranted(r, now) then b.restarts + [now] else b.restarts)
    // An explicit takeover is for the pass that follows it at once.
    case Writes(_) => b.(armed := false)
    case Passes(PassStarted(_, _, _)) => b.(armed := false)
    case Passes(PermissionTried(now)) => if r.login.Answer(now) == Granted then b.(grants := b.grants + [now]) else b
    case Passes(Asked(request, _, _)) => if request == Initialize(true) then b.(sent := b.sent + 1) else b
    case Passes(Observed(_, _, _)) => b.(verdicts := b.verdicts + 1)
    case Hosts(h) => if Contacts(h) then b.(contacts := b.contacts + 1) else b
    case _ => b
  }

  function Time(clock: int, e: Event): int {
    match e
    case Writes(Cleared(_, now)) => now
    case Writes(LifecycleSet(_, _, now)) => now
    case Writes(LoginBegun(_, now)) => now
    case Writes(RestartChecked(now)) => now
    case Passes(PermissionTried(now)) => now
    case Passes(RetryChecked(now)) => now
    case Passes(Observed(_, _, now)) => now
    case _ => clock
  }

  function Apply(m: Manager, e: Event): Manager {
    Manager(RecordAfter(m, e),
            if e.Watches? then Watched(m.watch, e.watch) else m.watch,
            if e.Hosts? then Held(m.own, e.host) else m.own,
            if e.Passes? then PassAfter(m.pass, m.record, e.step) else m.pass,
            Time(m.clock, e),
            BooksAfter(m.books, m.record, e))
  }

  // ---------- runs ----------

  function Replay(origin: Manager, log: seq<Event>): Manager
    requires Legal(origin, log)
    decreases |log|, 1
  {
    if log == [] then origin else Apply(Replay(origin, log[..|log| - 1]), log[|log| - 1])
  }

  predicate Legal(origin: Manager, log: seq<Event>)
    decreases |log|, 0
  {
    log == [] || (Legal(origin, log[..|log| - 1]) && Enabled(Replay(origin, log[..|log| - 1]), log[|log| - 1]))
  }

  /** How often an existing live tree was about to be exchanged. */
  function Exchanges(log: seq<Event>): nat {
    if log == [] then 0 else Exchanges(log[..|log| - 1]) + if log[|log| - 1] == Hosts(ProgramRenamed) then 1 else 0
  }

  lemma {:induction false} ExchangesGrow(a: seq<Event>, b: seq<Event>)
    requires a <= b
    ensures Exchanges(a) <= Exchanges(b)
  {
    if a != b { ExchangesGrow(a, b[..|b| - 1]); }
  }

  // The same relation step by step, as a machine keeps it: some sequence of states leads from origin to m.

  predicate Step(m: Manager, e: Event, n: Manager) {
    Enabled(m, e) && n == Apply(m, e)
  }

  ghost predicate Path(origin: Manager, log: seq<Event>, states: seq<Manager>) {
    && |states| == |log| + 1 && states[0] == origin
    && forall i | 0 <= i < |log| :: Step(states[i], log[i], states[i + 1])
  }

  ghost predicate Reaches(origin: Manager, log: seq<Event>, m: Manager) {
    exists states :: Path(origin, log, states) && states[|log|] == m
  }

  lemma ReachesStart(origin: Manager)
    ensures Reaches(origin, [], origin)
  {
    assert Path(origin, [], [origin]);
  }

  lemma ReachesNext(origin: Manager, log: seq<Event>, m: Manager, e: Event)
    requires Reaches(origin, log, m) && Enabled(m, e)
    ensures Reaches(origin, log + [e], Apply(m, e))
  {
    var states :| Path(origin, log, states) && states[|log|] == m;
    var longer := states + [Apply(m, e)];
    assert Step(m, e, Apply(m, e));
    assert Path(origin, log + [e], longer);
  }

  /** A machine that reaches m by a log has replayed exactly that legal log. */
  lemma {:induction false} ReachesReplays(origin: Manager, log: seq<Event>, m: Manager)
    requires Reaches(origin, log, m)
    ensures Legal(origin, log) && Replay(origin, log) == m
  {
    var states :| Path(origin, log, states) && states[|log|] == m;
    if log != [] {
      var before := log[..|log| - 1];
      assert Path(origin, before, states[..|log|]);
      ReachesReplays(origin, before, states[|log| - 1]);
      assert Step(states[|log| - 1], log[|log| - 1], states[|log|]);
    }
  }
}
