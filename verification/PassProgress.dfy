/** How far a refresh pass has come, in the terms of refreshSession's control flow (gateway/session.go). */
module PassProgress {
  import opened Basics
  import opened LoginInitialization
  import opened SessionProtocol

  ghost predicate Fresh(p: Pass, recover: bool, compete: bool, pending: bool) {
    exists supervisor :: p == NewPass(supervisor, recover, compete, pending)
  }

  /** The process answered the tickle; nothing else was asked yet. */
  ghost predicate Alive(p: Pass, recover: bool, compete: bool, pending: bool, tickle: Reply) {
    exists supervisor :: p == NewPass(supervisor, recover, compete, pending).(tickle := Some(tickle), noted := true)
      && !tickle.Failed?
  }

  /** The pass goes by `auth`, which the tickle or the status request said. */
  ghost predicate Known(p: Pass, recover: bool, compete: bool, pending: bool, auth: BrokerageAuth, tickled: bool) {
    && p.Pass? && p.recover == recover && p.compete == compete && p.pending == pending
    && p.tickle.Some? && !p.tickle.value.Failed? && p.noted && (p.status.Some? ==> !p.status.value.Failed?)
    && (p.tickle.value.Answered? && !p.tickle.value.auth.IsReady() ==> p.status.Some?)
    && auth == Brokerage(p) && tickled == p.tickle.value.Answered?
    && p.sso.None? && p.permission.None? && p.init.None? && Undecided(p)
  }

  ghost predicate Undecided(p: Pass) {
    p.Pass? && p.outcome.None? && p.recheck.None? && p.retrying.None?
  }

  /** The brokerage is known not to be ready, and the pass goes by `auth` from here on. */
  ghost predicate Unready(p: Pass, recover: bool, compete: bool, auth: BrokerageAuth, tickled: bool) {
    && p.Pass? && p.recover == recover && p.compete == compete
    && p.tickle.Some? && !p.tickle.value.Failed? && p.noted && (p.status.Some? ==> !p.status.value.Failed?)
    && (p.tickle.value.Answered? && !p.tickle.value.auth.IsReady() ==> p.status.Some?)
    && !auth.IsReady() && !(auth.competing && !p.compete && !p.pending)
    && auth == Brokerage(p) && tickled == p.tickle.value.Answered?
  }

  /** Validation said yes and an initialisation is wanted. */
  ghost predicate Validated(p: Pass, compete: bool, auth: BrokerageAuth, tickled: bool) {
    && Unready(p, true, compete, auth, tickled) && p.sso.Some? && p.sso.value.Confirmed()
    && !(auth.authenticated && !auth.competing && auth.failure == "")
  }

  /** An initialisation was permitted and answered. */
  ghost predicate Initialized(p: Pass, compete: bool, auth: BrokerageAuth, tickled: bool) {
    && Validated(p, compete, auth, tickled) && p.init.Some?
    && (p.permission == Some(Granted) || p.permission == Some(NotNeeded))
  }

  /** The brokerage answered 401 to the initialisation, or to the question that followed it. */
  ghost predicate Refused(p: Pass, compete: bool, base: BrokerageAuth, auth: BrokerageAuth, tickled: bool) {
    && Initialized(p, compete, base, tickled)
    && (p.init.value.Unauthorized? ==> auth == base)
    && (!p.init.value.Unauthorized? ==>
          p.init.value.Answered? && p.init.value.auth.failure == "" && p.outcome == Some(Unauthorized)
            && auth == NO_AUTH)
  }

  lemma RefusedMeans(p: Pass, compete: bool, base: BrokerageAuth, auth: BrokerageAuth, tickled: bool)
    requires Refused(p, compete, base, auth, tickled)
    ensures p.Pass? && p.sso.Some? && NextAction(p) == AfterUnauthorized(p, auth, tickled)
  {}

  /** The initialisation was accepted; the question that follows decides. */
  ghost predicate Accepted(p: Pass, compete: bool, base: BrokerageAuth, tickled: bool) {
    Initialized(p, compete, base, tickled) && p.init.value.Answered? && p.init.value.auth.failure == ""
  }

  function OutcomeState(auth: BrokerageAuth): SessionState {
    if auth.competing then Competing else if auth.IsReady() then Ready else Recovering
  }

  lemma AcceptedMeans(p: Pass, compete: bool, base: BrokerageAuth, tickled: bool)
    requires Accepted(p, compete, base, tickled)
    ensures p.Pass? && p.sso.Some? && p.init.Some? && (p.outcome.None? ==> NextAction(p) == Ask(AuthStatus))
    ensures p.outcome.Some? && p.outcome.value == Unauthorized ==> Refused(p, compete, base, NO_AUTH, tickled)
    ensures p.outcome.Some? && p.outcome.value.Answered? && p.outcome.value.auth.failure != "" ==>
      Failing(p, compete, base, p.outcome.value.auth, tickled)
    ensures p.outcome.Some? && !p.outcome.value.Unauthorized? && p.outcome.value.Auth().failure == "" ==>
      NextAction(p) == Report(Verdict(OutcomeState(p.outcome.value.Auth()), SsoValid, p.outcome.value.Auth(),
                                      if p.outcome.value.Failed? then Some(p.outcome.value.message) else None, tickled))
  {}

  lemma OutcomeAccepted(p: Pass, compete: bool, base: BrokerageAuth, tickled: bool, reply: Reply)
    requires Accepted(p, compete, base, tickled)
    ensures Accepted(p.(outcome := Some(reply)), compete, base, tickled)
  {}

  lemma RecheckRefused(p: Pass, compete: bool, base: BrokerageAuth, auth: BrokerageAuth, tickled: bool, reply: Reply)
    requires Refused(p, compete, base, auth, tickled)
    ensures Refused(p.(recheck := Some(reply)), compete, base, auth, tickled)
  {}

  /** The initialisation, or the question that followed it, was answered with a failure. */
  ghost predicate Failing(p: Pass, compete: bool, base: BrokerageAuth, auth: BrokerageAuth, tickled: bool) {
    && Initialized(p, compete, base, tickled) && p.init.value.Answered? && auth.failure != ""
    && if p.init.value.auth.failure != "" then auth == p.init.value.auth
       else p.outcome.Some? && p.outcome.value.Answered? && p.outcome.value.auth == auth
  }

  lemma FailingMeans(p: Pass, compete: bool, base: BrokerageAuth, auth: BrokerageAuth, tickled: bool)
    requires Failing(p, compete, base, auth, tickled)
    ensures p.Pass? && NextAction(p) == AfterFailure(p, auth, tickled)
  {}

  lemma RetryingFailing(p: Pass, compete: bool, base: BrokerageAuth, auth: BrokerageAuth, tickled: bool, active: bool)
    requires Failing(p, compete, base, auth, tickled)
    ensures Failing(p.(retrying := Some(active)), compete, base, auth, tickled)
  {}
}
