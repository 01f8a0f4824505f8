/** The bounded takeover permission created by an explicit login or takeover
    (gateway/login_initialization.go) and the retry delays it uses. */
module LoginInitialization {
  import opened Basics

  const MAX_ATTEMPTS: nat := 3

  /** 5 s, 15 s, 30 s, 1 min, 2 min and then 5 min for ever. */
  function RetryDelay(attempt: int): (delay: int)
    ensures 5 * SECOND <= delay <= 5 * MINUTE
  {
    if attempt <= 1 then 5 * SECOND
    else if attempt == 2 then 15 * SECOND
    else if attempt == 3 then 30 * SECOND
    else if attempt == 4 then MINUTE
    else if attempt == 5 then 2 * MINUTE
    else 5 * MINUTE
  }

  datatype Permission = NotNeeded | Denied | Wait | Granted

  datatype Login = Login(waitingUntil: Option<int>, deadline: Option<int>, nextAttempt: Option<int>,
                         attempts: nat, exhausted: bool)
  {
    predicate Pending() {
      waitingUntil.Some? || deadline.Some?
    }

    predicate Active(now: int) {
      !exhausted && (Before(now, waitingUntil) || Before(now, deadline))
    }

    /** The first validated attempt turns the ten-minute wait into a two-minute window. */
    function Opened(now: int): Login {
      if waitingUntil.None? || exhausted then this
      else if Before(now, waitingUntil) then this.(waitingUntil := None, deadline := Some(now + 2 * MINUTE))
      else this.(exhausted := true)
    }

    /** What one attempt answers, read off the window rather than step by step. */
    function Answer(now: int): Permission {
      var l := Opened(now);
      if !Pending() then NotNeeded
      else if l.exhausted || !Before(now, l.deadline) || l.attempts >= MAX_ATTEMPTS then Denied
      else if Before(now, l.nextAttempt) then Wait
      else Granted
    }

    function After(now: int): Login {
      var l := Opened(now);
      match Answer(now)
      case NotNeeded => this
      case Denied => l.(exhausted := true)
      case Wait => l
      case Granted => l.(attempts := l.attempts + 1, nextAttempt := Some(now + RetryDelay(l.attempts + 1)))
    }
  }

  const NO_LOGIN: Login := Login(None, None, None, 0, false)

  function NewLogin(now: int): Login {
    NO_LOGIN.(waitingUntil := Some(now + 10 * MINUTE))
  }

  /** What a permission is worth: `grants` are the times at which it said yes since `begun`. */
  ghost predicate Accounted(l: Login, begun: int, grants: seq<int>) {
    && l.attempts == |grants| <= MAX_ATTEMPTS
    && (forall i | 0 <= i < |grants| :: begun <= grants[i] < begun + 12 * MINUTE)
    && (forall i | 0 <= i < |grants| :: grants[0] <= grants[i] < grants[0] + 2 * MINUTE)
    && (|grants| >= 2 ==> grants[1] - grants[0] >= 5 * SECOND)
    && (|grants| >= 3 ==> grants[2] - grants[1] >= 15 * SECOND)
    && (l.waitingUntil.Some? ==> grants == [] && l.deadline.None? && l.waitingUntil == Some(begun + 10 * MINUTE))
    && (l.deadline.Some? ==> grants != [] && l.waitingUntil.None? && l.deadline == Some(grants[0] + 2 * MINUTE))
    && (grants == [] ==> l.nextAttempt.None?)
    && (grants != [] ==> l.nextAttempt == Some(grants[|grants| - 1] + RetryDelay(|grants|)))
    && (grants != [] ==> grants[0] < begun + 10 * MINUTE)
  }

  lemma NewLoginAccounted(now: int)
    ensures Accounted(NewLogin(now), now, [])
  {}

  /** Whatever the time, an attempt keeps the books: a grant is in the window, spaced, and at most the third. */
  lemma AttemptAccounted(l: Login, begun: int, grants: seq<int>, now: int)
    requires Accounted(l, begun, grants) && begun <= now
    requires grants != [] ==> grants[|grants| - 1] <= now
    ensures l.Answer(now) == Granted ==> Accounted(l.After(now), begun, grants + [now])
    ensures l.Answer(now) != Granted ==> Accounted(l.After(now), begun, grants)
  {}

  /** Exhaustion is final for this permission: every later attempt is refused and changes nothing. */
  lemma ExhaustionIsFinal(l: Login, now: int, later: int)
    requires l.Pending() && l.Answer(now) == Denied
    ensures l.After(now).exhausted && l.After(now).Pending()
    ensures l.After(now).Answer(later) == Denied && l.After(now).After(later) == l.After(now)
    ensures !l.After(now).Active(later)
  {}
}
