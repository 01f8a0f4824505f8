/** Browser grants: manager logins, one-time tickets and gateway sessions in two maps under one mutex, with a
    ticket issue that is split in two sections (internal/service/auth.go, server.go, configuration.go). */
module BrowserGrants {
  import opened Basics

  type Token = string
  type Id = string

  // A manager login has no gateway; a grant names the login it came from, or none for an API credential.
  datatype Session = Session(owner: Option<Token>, gateway: Option<Id>, expires: int)
  datatype Ticket = Ticket(owner: Option<Token>, gateway: Id, sessionExpires: int, expires: int)

  // A ticket between the two sections of its issue.
  datatype Issue = Issue(ticket: Token, owner: Option<Token>, gateway: Id, sessionExpires: int)

  // gateways maps each configured instance to its proxy token; used are the random tokens ever drawn.
  datatype State = State(sessions: map<Token, Session>, tickets: map<Token, Ticket>, gateways: map<Id, string>,
                         used: set<Token>, issuing: Option<Issue>, clock: int)

  datatype Event =
    | LoggedIn(token: Token, previous: Option<Token>, expires: int, now: int)
    | LoggedOut(login: Token)
    | IssueBegun(ticket: Token, cookie: Option<Token>, bearer: bool, gateway: Id, expires: int, now: int)
    | IssueFinished(now: int)
    | Consumed(ticket: Token, gateway: Id, session: Option<Token>, now: int)
    | Checked(gateway: Id, grant: Token, listed: bool, ok: bool, now: int)
    | GatewayLoggedOut(gateway: Id)
    | Reconfigured(was: map<Id, string>, next: map<Id, string>)

  // ---------- what is kept ----------

  predicate IsLogin(s: Session) {
    s.gateway.None?
  }

  predicate OwnerValid(sessions: map<Token, Session>, owner: Option<Token>, now: int) {
    owner.Some? ==> owner.value in sessions && IsLogin(sessions[owner.value]) && now < sessions[owner.value].expires
  }

  /** The instance was removed, or its proxy token changed. */
  predicate Withdrawn(was: map<Id, string>, next: map<Id, string>, id: Id) {
    id !in was || id !in next || was[id] != next[id]
  }

  function Unexpired(sessions: map<Token, Session>, now: int): map<Token, Session> {
    map k | k in sessions && now < sessions[k].expires :: sessions[k]
  }

  function UnexpiredTickets(tickets: map<Token, Ticket>, now: int): map<Token, Ticket> {
    map k | k in tickets && now < tickets[k].expires :: tickets[k]
  }

  function Cleaned(s: State, now: int): State {
    s.(sessions := Unexpired(s.sessions, now), tickets := UnexpiredTickets(s.tickets, now), clock := now)
  }

  function Revoked(s: State, login: Token): State {
    s.(sessions := map k | k in s.sessions && k != login && s.sessions[k].owner != Some(login) :: s.sessions[k],
       tickets := map k | k in s.tickets && s.tickets[k].owner != Some(login) :: s.tickets[k])
  }

  function WithoutGateway(s: State, id: Id): State {
    s.(sessions := map k | k in s.sessions && s.sessions[k].gateway != Some(id) :: s.sessions[k],
       tickets := map k | k in s.tickets && s.tickets[k].gateway != id :: s.tickets[k])
  }

  function Republished(s: State, was: map<Id, string>, next: map<Id, string>): State {
    s.(sessions := map k | k in s.sessions
      && (s.sessions[k].gateway.Some? ==> !Withdrawn(was, next, s.sessions[k].gateway.value)) :: s.sessions[k],
       tickets := map k | k in s.tickets && !Withdrawn(was, next, s.tickets[k].gateway) :: s.tickets[k],
       gateways := next)
  }

  lemma CleanedTwice(s: State, now: int)
    ensures Cleaned(Cleaned(s, now), now) == Cleaned(s, now)
  {
    var once := Cleaned(s, now);
    assert Unexpired(once.sessions, now) == once.sessions;
    assert UnexpiredTickets(once.tickets, now) == once.tickets;
  }

  // ---------- the machine ----------

  /** A login cookie that is honoured at `now`. */
  predicate Honoured(s: State, cookie: Option<Token>, now: int) {
    cookie.Some? && OwnerValid(s.sessions, cookie, now)
  }

  predicate Redeemable(s: State, ticket: Token, id: Id, now: int) {
    && ticket in s.tickets && now < s.tickets[ticket].expires && s.tickets[ticket].gateway == id
    && OwnerValid(s.sessions, s.tickets[ticket].owner, now) && now < s.tickets[ticket].sessionExpires
  }

  predicate Authorizes(s: State, id: Id, cookie: Token, now: int) {
    && cookie in s.sessions && s.sessions[cookie].gateway == Some(id) && now < s.sessions[cookie].expires
    && OwnerValid(s.sessions, s.sessions[cookie].owner, now)
  }

  /** Issues, instance logouts and configuration changes hold the operation mutex from first to last section. */
  predicate Enabled(s: State, e: Event) {
    match e
    case LoggedIn(token, _, _, now) => token !in s.used && s.clock <= now
    case LoggedOut(_) => true
    case IssueBegun(ticket, cookie, bearer, id, _, now) =>
      && s.issuing.None? && ticket !in s.used && id in s.gateways && s.clock <= now
      && (bearer || Honoured(s, cookie, now))
    case IssueFinished(now) => s.issuing.Some? && s.clock <= now
    case Consumed(ticket, id, session, now) =>
      s.clock <= now && (session.Some? ==> Redeemable(s, ticket, id, now) && session.value !in s.used)
    case Checked(id, cookie, listed, ok, now) => s.clock <= now && (ok <==> listed && Authorizes(s, id, cookie, now))
    case GatewayLoggedOut(_) => s.issuing.None?
    case Reconfigured(was, _) => s.issuing.None? && was == s.gateways
  }

  function Apply(s: State, e: Event): State {
    match e
    case LoggedIn(token, previous, expires, now) =>
      var c := Cleaned(s, now);
      var r := if previous.Some? then Revoked(c, previous.value) else c;
      r.(sessions := r.sessions[token := Session(None, None, expires)], used := r.used + {token})
    case LoggedOut(login) => Revoked(s, login)
    case IssueBegun(ticket, cookie, _, id, expires, now) =>
      var c := Cleaned(s, now);
      var issue := if Honoured(s, cookie, now) then Issue(ticket, cookie, id, s.sessions[cookie.value].expires)
                   else Issue(ticket, None, id, expires);
      c.(used := c.used + {ticket}, issuing := Some(issue))
    case IssueFinished(now) =>
      if s.issuing.None? then s else
      var c, i := Cleaned(s, now), s.issuing.value;
      c.(tickets := c.tickets[i.ticket := Ticket(i.owner, i.gateway, i.sessionExpires, now + 2 * MINUTE)],
        issuing := None)
    case Consumed(ticket, id, session, now) =>
      var rest := s.(tickets := s.tickets - {ticket}, clock := now);
      if session.None? || ticket !in s.tickets then rest
      else rest.(sessions := s.sessions[session.value :=
        Session(s.tickets[ticket].owner, Some(id), s.tickets[ticket].sessionExpires)],
                 used := s.used + {session.value})
    case Checked(_, _, _, _, now) => Cleaned(s, now)
    case GatewayLoggedOut(id) => WithoutGateway(s, id)
    case Reconfigured(was, next) => Republished(s, was, next)
  }

  predicate Legal(s: State, log: seq<Event>)
    decreases |log|
  {
    log == [] || (Enabled(s, log[0]) && Legal(Apply(s, log[0]), log[1..]))
  }

  /** The state before the k-th event. */
  function At(s: State, log: seq<Event>, k: nat): State
    requires k <= |log|
    decreases k
  {
    if k == 0 then s else Apply(At(s, log, k - 1), log[k - 1])
  }

  lemma {:induction false} LegalAt(s: State, log: seq<Event>, k: nat)
    requires Legal(s, log) && k < |log|
    decreases k
    ensures Enabled(At(s, log, k), log[k])
  {
    if k > 0 {
      LegalAt(Apply(s, log[0]), log[1..], k - 1);
      AtLater(s, log, k);
    }
  }

  lemma {:induction false} AtLater(s: State, log: seq<Event>, k: nat)
    requires 0 < k <= |log|
    ensures At(s, log, k) == At(Apply(s, log[0]), log[1..], k - 1)
  {
    if k > 1 { AtLater(s, log, k - 1); }
  }

  // ---------- a dead login stays dead ----------

  /** Every token in the maps or on its way was drawn, and a login has no owner. */
  ghost predicate Drawn(s: State) {
    && (forall k | k in s.sessions && IsLogin(s.sessions[k]) :: s.sessions[k].owner.None?)
    && s.sessions.Keys <= s.used && s.tickets.Keys <= s.used
    && (s.issuing.Some? ==> s.issuing.value.ticket in s.used && s.issuing.value.ticket !in s.tickets)
  }

  ghost predicate Dead(s: State, login: Token) {
    login in s.used && !OwnerValid(s.sessions, Some(login), s.clock)
  }

  lemma StepDrawn(s: State, e: Event)
    requires Drawn(s) && Enabled(s, e)
    ensures Drawn(Apply(s, e))
  {}

  lemma StepDead(s: State, e: Event, login: Token)
    requires Drawn(s) && Enabled(s, e) && Dead(s, login)
    ensures Dead(Apply(s, e), login)
  {}

  /** A revoked or expired manager login never authorises anything again: not through grants consumed before,
      nor through tickets whose second section ran after the revocation. */
  lemma {:induction false} DeadForever(s: State, log: seq<Event>, login: Token, k: nat)
    requires Drawn(s) && Dead(s, login) && Legal(s, log) && k < |log|
    decreases k
    ensures var m := At(s, log, k);
      && Dead(m, login)
      && (log[k].Checked? && log[k].ok ==> log[k].grant in m.sessions && m.sessions[log[k].grant].owner != Some(login))
      && (log[k].Consumed? && log[k].session.Some? ==>
        log[k].ticket in m.tickets && m.tickets[log[k].ticket].owner != Some(login))
      && (log[k].IssueBegun? ==> Apply(m, log[k]).issuing.value.owner != Some(login))
  {
    if k > 0 {
      StepDrawn(s, log[0]);
      StepDead(s, log[0], login);
      DeadForever(Apply(s, log[0]), log[1..], login, k - 1);
      AtLater(s, log, k);
    }
  }

  /** Logging out, replacing the login, and the passing of its time all kill it. */
  lemma LoginsDie(s: State, login: Token)
    requires Drawn(s) && login in s.sessions && IsLogin(s.sessions[login])
    ensures Dead(Apply(s, LoggedOut(login)), login)
    ensures forall token, expires, now :: Enabled(s, LoggedIn(token, Some(login), expires, now)) ==>
      Dead(Apply(s, LoggedIn(token, Some(login), expires, now)), login)
    ensures s.sessions[login].expires <= s.clock ==> Dead(s, login)
  {}

  // ---------- every grant has one ticket ----------

  /** The instance was logged out of IBKR, removed, or given a new proxy token. */
  predicate Resets(e: Event, id: Id) {
    (e.GatewayLoggedOut? && e.gateway == id) || (e.Reconfigured? && Withdrawn(e.was, e.next, id))
  }

  /** Within the first n events: the ticket's issue began at b, and the instance was not reset since. */
  ghost predicate IssuedAt(log: seq<Event>, n: nat, ticket: Token, id: Id, b: nat) {
    && b < n <= |log| && log[b].IssueBegun? && log[b].ticket == ticket && log[b].gateway == id
    && forall m | b <= m < n :: !Resets(log[m], id)
  }

  ghost predicate Issued(log: seq<Event>, n: nat, ticket: Token, id: Id) {
    exists b :: IssuedAt(log, n, ticket, id, b)
  }

  /** The grant was redeemed at j from such a ticket. */
  ghost predicate RedeemedAt(log: seq<Event>, n: nat, grant: Token, id: Id, j: nat) {
    && j < n <= |log| && log[j].Consumed? && log[j].session == Some(grant) && log[j].gateway == id
    && Issued(log, j, log[j].ticket, id) && forall m | j <= m < n :: !Resets(log[m], id)
  }

  ghost predicate Redeemed(log: seq<Event>, n: nat, grant: Token, id: Id) {
    exists j :: RedeemedAt(log, n, grant, id, j)
  }

  lemma StaysIssued(log: seq<Event>, n: nat, ticket: Token, id: Id)
    requires n < |log| && Issued(log, n, ticket, id) && !Resets(log[n], id)
    ensures Issued(log, n + 1, ticket, id)
  {
    var b :| IssuedAt(log, n, ticket, id, b);
    assert IssuedAt(log, n + 1, ticket, id, b);
  }

  lemma StaysRedeemed(log: seq<Event>, n: nat, grant: Token, id: Id)
    requires n < |log| && Redeemed(log, n, grant, id) && !Resets(log[n], id)
    ensures Redeemed(log, n + 1, grant, id)
  {
    var j :| RedeemedAt(log, n, grant, id, j);
    assert RedeemedAt(log, n + 1, grant, id, j);
  }

  ghost predicate Traced(s: State, log: seq<Event>, n: nat) {
    && (forall t | t in s.tickets :: Issued(log, n, t, s.tickets[t].gateway))
    && (s.issuing.Some? ==> Issued(log, n, s.issuing.value.ticket, s.issuing.value.gateway))
    && (forall c | c in s.sessions && s.sessions[c].gateway.Some? :: Redeemed(log, n, c, s.sessions[c].gateway.value))
  }

  lemma StepTraced(s: State, log: seq<Event>, n: nat)
    requires n < |log| && Traced(s, log, n) && Enabled(s, log[n])
    ensures Traced(Apply(s, log[n]), log, n + 1)
  {
    var e, m := log[n], Apply(s, log[n]);
    forall t | t in m.tickets ensures Issued(log, n + 1, t, m.tickets[t].gateway) {
      StaysIssued(log, n, t, m.tickets[t].gateway);
    }
    if m.issuing.Some? {
      if e.IssueBegun? { assert IssuedAt(log, n + 1, e.ticket, e.gateway, n); }
      else { StaysIssued(log, n, m.issuing.value.ticket, m.issuing.value.gateway); }
    }
    forall c | c in m.sessions
      && m.sessions[c].gateway.Some? ensures Redeemed(log, n + 1, c, m.sessions[c].gateway.value) {
      if e.Consumed? && e.session == Some(c) { assert RedeemedAt(log, n + 1, c, e.gateway, n); }
      else { StaysRedeemed(log, n, c, m.sessions[c].gateway.value); }
    }
  }

  lemma {:induction false} AlwaysTraced(s: State, log: seq<Event>, n: nat)
    requires s.sessions == map[] && s.tickets == map[] && s.issuing.None? && Legal(s, log) && n <= |log|
    ensures Traced(At(s, log, n), log, n)
  {
    if n > 0 {
      AlwaysTraced(s, log, n - 1);
      LegalAt(s, log, n - 1);
      StepTraced(At(s, log, n - 1), log, n - 1);
    }
  }

  /** A ticket once redeemed is gone for good. */
  ghost predicate Spent(s: State, ticket: Token) {
    ticket in s.used && ticket !in s.tickets && (s.issuing.Some? ==> s.issuing.value.ticket != ticket)
  }

  lemma {:induction false} SpentForever(s: State, log: seq<Event>, ticket: Token, grant: Token, k: nat)
    requires Spent(s, ticket) && grant in s.used && Legal(s, log) && k < |log|
    decreases k
    ensures !(log[k].Consumed? && log[k].session.Some? && (log[k].ticket == ticket || log[k].session == Some(grant)))
  {
    if k > 0 { SpentForever(Apply(s, log[0]), log[1..], ticket, grant, k - 1); }
  }

  /** No ticket is redeemed twice and no grant is drawn twice. */
  lemma {:induction false} RedeemedOnce(s: State, log: seq<Event>, i: nat, j: nat)
    requires Drawn(s) && Legal(s, log) && i < j < |log|
    requires log[i].Consumed? && log[i].session.Some? && log[j].Consumed? && log[j].session.Some?
    decreases i
    ensures log[i].ticket != log[j].ticket && log[i].session != log[j].session
  {
    var m := Apply(s, log[0]);
    if i == 0 {
      SpentForever(m, log[1..], log[0].ticket, log[0].session.value, j - 1);
    } else {
      StepDrawn(s, log[0]);
      RedeemedOnce(m, log[1..], i - 1, j - 1);
    }
  }

  /** Every grant that is accepted was redeemed exactly once, from a ticket whose issue began after the latest
      logout, removal or token rotation of that instance. */
  lemma GrantsAreTraced(s: State, log: seq<Event>, k: nat)
    requires s.sessions == map[] && s.tickets == map[] && s.issuing.None? && Legal(s, log)
    requires k < |log| && log[k].Checked? && log[k].ok
    ensures Redeemed(log, k, log[k].grant, log[k].gateway)
    ensures forall i, j | 0 <= i < |log| && 0 <= j < |log| && Draws(log[i], log[k].grant)
      && Draws(log[j], log[k].grant) :: i == j
  {
    AlwaysTraced(s, log, k);
    LegalAt(s, log, k);
    forall i, j | 0 <= i < |log| && 0 <= j < |log| && Draws(log[i], log[k].grant)
      && Draws(log[j], log[k].grant) ensures i == j {
      if i < j { RedeemedOnce(s, log, i, j); }
      if j < i { RedeemedOnce(s, log, j, i); }
    }
  }

  predicate Draws(e: Event, grant: Token) {
    e.Consumed? && e.session == Some(grant)
  }

  // ---------- what survives ----------

  /** The login is logged out or replaced. */
  predicate Ends(e: Event, login: Token) {
    e == LoggedOut(login) || (e.LoggedIn? && e.previous == Some(login))
  }

  lemma {:induction false} ClockFlows(s: State, log: seq<Event>)
    requires Legal(s, log)
    decreases |log|
    ensures s.clock <= At(s, log, |log|).clock
  {
    if log != [] {
      ClockFlows(Apply(s, log[0]), log[1..]);
      AtLater(s, log, |log|);
    }
  }

  lemma StepKeepsLogin(s: State, e: Event, login: Token)
    requires Drawn(s) && Enabled(s, e) && OwnerValid(s.sessions, Some(login), s.clock)
    requires !Ends(e, login) && Apply(s, e).clock < s.sessions[login].expires
    ensures var m := Apply(s, e); login in m.sessions && m.sessions[login] == s.sessions[login]
  {}

  lemma StepKeepsGrant(s: State, e: Event, grant: Token, id: Id)
    requires Drawn(s) && Enabled(s, e) && Authorizes(s, id, grant, s.clock)
    requires !Resets(e, id) && !Ends(e, grant) && Apply(s, e).clock < s.sessions[grant].expires
    requires s.sessions[grant].owner.Some? ==> !Ends(e, s.sessions[grant].owner.value)
    ensures var m := Apply(s, e); grant in m.sessions && m.sessions[grant] == s.sessions[grant]
  {}

  /** A grant outlives everything but its own time, its login's end, and a reset of its own instance: in
      particular every logout, removal and rotation of other instances. */
  lemma {:induction false} GrantSurvives(s: State, log: seq<Event>, grant: Token, id: Id)
    requires Drawn(s) && Legal(s, log) && Authorizes(s, id, grant, s.clock)
    requires var session := s.sessions[grant]; var end := At(s, log, |log|).clock;
      && end < session.expires && (session.owner.Some? ==> end < s.sessions[session.owner.value].expires)
      && forall e | e in log ::
        !Resets(e, id) && !Ends(e, grant) && (session.owner.Some? ==> !Ends(e, session.owner.value))
    decreases |log|
    ensures Authorizes(At(s, log, |log|), id, grant, At(s, log, |log|).clock)
  {
    if log != [] {
      var m, owner := Apply(s, log[0]), s.sessions[grant].owner;
      AtLater(s, log, |log|);
      ClockFlows(m, log[1..]);
      StepDrawn(s, log[0]);
      assert log[0] in log;
      StepKeepsGrant(s, log[0], grant, id);
      if owner.Some? { StepKeepsLogin(s, log[0], owner.value); }
      assert forall e | e in log[1..] :: e in log;
      GrantSurvives(m, log[1..], grant, id);
    }
  }

  /** A manager login outlives everything but its own time and its own end. */
  lemma {:induction false} LoginSurvives(s: State, log: seq<Event>, login: Token)
    requires Drawn(s) && Legal(s, log) && OwnerValid(s.sessions, Some(login), s.clock)
    requires At(s, log, |log|).clock < s.sessions[login].expires
    requires forall e | e in log :: !Ends(e, login)
    decreases |log|
    ensures OwnerValid(At(s, log, |log|).sessions, Some(login), At(s, log, |log|).clock)
  {
    if log != [] {
      AtLater(s, log, |log|);
      ClockFlows(Apply(s, log[0]), log[1..]);
      StepDrawn(s, log[0]);
      assert log[0] in log;
      StepKeepsLogin(s, log[0], login);
      assert forall e | e in log[1..] :: e in log;
      LoginSurvives(Apply(s, log[0]), log[1..], login);
    }
  }

  // ---------- the server's maps ----------

  /** The fields of the server that hold grants. Each method is one or two sections of its mutex, and each
      section is one enabled step of the machine above. */
  class Grants {
    var sessions: map<Token, Session>
    var tickets: map<Token, Ticket>
    var gateways: map<Id, string>
    var clock: int
    ghost var used: set<Token>
    ghost var issuing: Option<Issue>

    ghost function Current(): State
      reads this
    {
      State(sessions, tickets, gateways, used, issuing, clock)
    }

    constructor (gateways: map<Id, string>, now: int)
      ensures Current() == State(map[], map[], gateways, {}, None, now)
    {
      sessions, tickets, this.gateways, clock, used, issuing := map[], map[], gateways, now, {}, None;
    }

    method SweepSessions(doomed: Session -> bool)
      modifies `sessions
      ensures sessions == map k | k in old(sessions) && !doomed(old(sessions)[k]) :: old(sessions)[k]
    {
      var keys := sessions.Keys;
      while keys != {}
        invariant keys <= old(sessions).Keys && sessions.Keys <= old(sessions).Keys
        invariant forall k | k in old(sessions) :: k in sessions <==> k in keys || !doomed(old(sessions)[k])
        invariant forall k | k in sessions :: sessions[k] == old(sessions)[k]
      {
        var k :| k in keys;
        if doomed(sessions[k]) { sessions := sessions - {k}; }
        keys := keys - {k};
      }
    }

    method SweepTickets(doomed: Ticket -> bool)
      modifies `tickets
      ensures tickets == map k | k in old(tickets) && !doomed(old(tickets)[k]) :: old(tickets)[k]
    {
      var keys := tickets.Keys;
      while keys != {}
        invariant keys <= old(tickets).Keys && tickets.Keys <= old(tickets).Keys
        invariant forall k | k in old(tickets) :: k in tickets <==> k in keys || !doomed(old(tickets)[k])
        invariant forall k | k in tickets :: tickets[k] == old(tickets)[k]
      {
        var k :| k in keys;
        if doomed(tickets[k]) { tickets := tickets - {k}; }
        keys := keys - {k};
      }
    }

    /** cleanupLocked */
    method Cleanup(now: int)
      modifies `sessions, `tickets, `clock
      ensures Current() == Cleaned(old(Current()), now)
    {
      SweepTickets((ticket: Ticket) => ticket.expires <= now);
      SweepSessions((session: Session) => session.expires <= now);
      clock := now;
    }

    /** managerSession: the login a cookie stands for. */
    method ManagerSession(cookie: Option<Token>, now: int) returns (login: Option<Token>)
      modifies `sessions, `tickets, `clock
      ensures Current() == Cleaned(old(Current()), now)
      ensures login == if Honoured(old(Current()), cookie, now) then cookie else None
    {
      Cleanup(now);
      login := if cookie.Some? && cookie.value in sessions
        && sessions[cookie.value].gateway.None? then cookie else None;
    }

    /** revokeManagerSessionLocked */
    method Revoke(login: Token)
      modifies `sessions, `tickets
      ensures Current() == Revoked(old(Current()), login)
    {
      sessions := sessions - {login};
      SweepSessions((session: Session) => session.owner == Some(login));
      assert sessions == Revoked(old(Current()), login).sessions;
      SweepTickets((ticket: Ticket) => ticket.owner == Some(login));
    }

    /** A login with correct credentials; without a random token nothing happens. */
    method Login(token: Option<Token>, cookie: Option<Token>, ttl: nat, now: int)
      requires clock <= now && (token.Some? ==> token.value !in used)
      modifies this
      ensures token.None? ==> Current() == old(Current())
      ensures token.Some? ==>
        var e := LoggedIn(token.value, if Honoured(old(Current()), cookie, now) then cookie else None,
          now + ttl * MINUTE, now);
        Enabled(old(Current()), e) && Current() == Apply(old(Current()), e)
    {
      hide Cleaned, Revoked;
      if token.None? { return; }
      CleanedTwice(Current(), now);
      var previous := ManagerSession(cookie, now);
      Cleanup(now);
      if previous.Some? { Revoke(previous.value); }
      sessions := sessions[token.value := Session(None, None, now + ttl * MINUTE)];
      used := used + {token.value};
    }

    method Logout(login: Token)
      modifies this
      ensures Current() == Apply(old(Current()), LoggedOut(login))
    {
      Revoke(login);
    }

    /** issueLoginTicket, up to the point where it lets go of the mutex. */
    method BeginIssue(ticket: Option<Token>, cookie: Option<Token>, bearer: bool, id: Id, ttl: nat, now: int)
      returns (issue: Option<Issue>)
      requires clock <= now && issuing.None? && (ticket.Some? ==> ticket.value !in used)
      modifies this
      ensures issue.Some? <==> id in gateways && ticket.Some? && (bearer || Honoured(old(Current()), cookie, now))
      ensures issue.Some? ==>
        var e := IssueBegun(ticket.value, cookie, bearer, id, now + ttl * MINUTE, now);
        Enabled(old(Current()), e) && Current() == Apply(old(Current()), e) && issuing == issue
      ensures issue.None? ==> Current() == old(Current()) || Current() == Cleaned(old(Current()), now)
    {
      if id !in gateways || ticket.None? { return None; }
      var login := ManagerSession(cookie, now);
      if !bearer && login.None? { return None; }
      var expires := now + ttl * MINUTE;
      if login.Some? { expires := sessions[login.value].expires; }
      issue := Some(Issue(ticket.value, login, id, expires));
      used, issuing := used + {ticket.value}, issue;
    }

    /** The second section: the ticket enters the map even if its login was revoked meanwhile. */
    method FinishIssue(issue: Issue, now: int)
      requires clock <= now && issuing == Some(issue)
      modifies this
      ensures Enabled(old(Current()), IssueFinished(now)) && Current() == Apply(old(Current()), IssueFinished(now))
    {
      Cleanup(now);
      tickets := tickets[issue.ticket := Ticket(issue.owner, issue.gateway, issue.sessionExpires, now + 2 * MINUTE)];
      issuing := None;
    }

    /** consumeTicket: whatever the outcome, the ticket is gone. */
    method Consume(ticket: Token, id: Id, token: Option<Token>, now: int) returns (grant: Option<Token>)
      requires clock <= now && (token.Some? ==> token.value !in used)
      modifies this
      ensures grant == if Redeemable(old(Current()), ticket, id, now) then token else None
      ensures Enabled(old(Current()), Consumed(ticket, id, grant, now))
        && Current() == Apply(old(Current()), Consumed(ticket, id, grant, now))
    {
      clock := now;
      var known := ticket in tickets;
      var found := if known then tickets[ticket] else Ticket(None, id, now, now);
      tickets := tickets - {ticket};
      if !known || found.expires <= now || found.gateway != id { return None; }
      var valid := OwnerValid(sessions, found.owner, now);
      if !valid || found.sessionExpires <= now || token.None? { return None; }
      sessions := sessions[token.value := Session(found.owner, Some(found.gateway), found.sessionExpires)];
      used := used + {token.value};
      grant := token;
    }

    /** authorizedProxy for a cookie; `listed` is what the configuration said of the instance before. */
    method Authorized(id: Id, cookie: Token, listed: bool, now: int) returns (ok: bool)
      requires clock <= now
      modifies this
      ensures Enabled(old(Current()), Checked(id, cookie, listed, ok, now))
        && Current() == Apply(old(Current()), Checked(id, cookie, listed, ok, now))
    {
      Cleanup(now);
      ok := listed && cookie in sessions && sessions[cookie].gateway == Some(id) && now < sessions[cookie].expires;
      if ok { ok := OwnerValid(sessions, sessions[cookie].owner, now); }
    }

    /** The logout branch of serveGatewayOperation, confirmed by IBKR or not. */
    method LogoutGateway(id: Id)
      requires issuing.None?
      modifies this
      ensures Current() == Apply(old(Current()), GatewayLoggedOut(id))
    {
      SweepSessions((session: Session) => session.gateway == Some(id));
      SweepTickets((ticket: Ticket) => ticket.gateway == id);
    }

    /** The last section of applyConfig: publish, and withdraw what was removed or rotated. */
    method Publish(next: map<Id, string>)
      requires issuing.None?
      modifies this
      ensures Enabled(old(Current()), Reconfigured(old(gateways), next))
      ensures Current() == Apply(old(Current()), Reconfigured(old(gateways), next))
    {
      var was := gateways;
      gateways := next;
      SweepSessions((session: Session) => session.gateway.Some? && Withdrawn(was, next, session.gateway.value));
      SweepTickets((ticket: Ticket) => Withdrawn(was, next, ticket.gateway));
      hide Withdrawn;
      assert sessions == Republished(old(Current()), was, next).sessions;
      assert tickets == Republished(old(Current()), was, next).tickets;
    }
  }
}
