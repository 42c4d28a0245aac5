/**
 * The session manager (SalesforceConnection.js): one SOAP client and the
 * timestamp from which a new login is needed. `prepare` resolves at once
 * while the session is fresh and logs in otherwise; a login that succeeds
 * stores the client and moves the deadline 100 minutes past the moment the
 * login completed. The clock is a parameter, and the transport's `Login()`
 * is represented by its outcome.
 */
module Connection {
  import opened JsValues

  /** Milliseconds in a minute. */
  const MinutesMultiplier: int := 60 * 1000

  /** Sessions last 120 minutes; the manager logs in again after 100. */
  const RenewalWindow: int := MinutesMultiplier * 100

  /** The opaque SOAP client that a login hands back. */
  datatype Client = Client(id: nat)

  /** How the transport's `Login()` promise ends: fulfilled with a client, the
      clock reading `Date.now()` as `at` when the handler runs, or rejected. */
  datatype LoginOutcome = LoggedIn(client: Client, at: int) | LoginFailed

  /** The two fields of the manager; `None` stands for `null`. */
  datatype Session = Session(soapClient: Option<Client>, nextLoginStamp: int)

  /** The state after one `prepare()`: whether its promise resolves (a failed
      login has no rejection handler, so it never settles) and how many times
      `Login()` was called. */
  datatype PrepareStep = PrepareStep(after: Session, ready: bool, loginCalls: nat)

  /** The state the constructor sets up. */
  const Initial: Session := Session(None, 0)

  /** `_connectionStatus` with the meaning its comment gives it: connected
      when there is a client and the deadline lies strictly in the future. */
  predicate IsConnected(s: Session, now: int) {
    s.soapClient.Some? && s.nextLoginStamp > now
  }

  /** One call of `prepare()` at time `now`. */
  function PrepareTransition(s: Session, now: int, login: LoginOutcome): PrepareStep {
    if IsConnected(s, now) then PrepareStep(s, true, 0)
    else
      match login
      case LoggedIn(c, t) => PrepareStep(Session(Some(c), t + RenewalWindow), true, 1)
      case LoginFailed => PrepareStep(s, false, 1)
  }

  /** `_connectionStatus` as written: it reads the bare identifiers
      `soapClient` and `nextLoginStamp`, which name no variable in scope (the
      fields are `this.soapClient` and `this.nextLoginStamp`, and no local or
      global of those names exists), so the first read throws a
      ReferenceError whatever the state; the `new Date.now()` after it (a
      TypeError) is never reached. */
  function StatusAsWritten(s: Session, now: int): Completion<bool> {
    Throw(ReferenceError)
  }

  /** `prepare()` as written: the status check throws before either branch. */
  function PrepareAsWritten(s: Session, now: int, login: LoginOutcome): Completion<PrepareStep> {
    match StatusAsWritten(s, now)
    case Throw(e) => Throw(e)
    case Normal(connected) =>
      if connected then Normal(PrepareStep(s, true, 0)) else Normal(PrepareTransition(s, now, login))
  }

  /** As written, even the first `prepare()` on a new manager throws, where
      the intended status sends it to log in. */
  lemma FirstPrepareAsWrittenThrows(now: int, login: LoginOutcome)
    ensures PrepareAsWritten(Initial, now, login) == Throw(ReferenceError)
    ensures PrepareTransition(Initial, now, login).loginCalls == 1
  {
  }

  /** No state is ever treated as connected by the code as written. */
  lemma StatusAsWrittenNeverAnswers(s: Session, now: int)
    ensures StatusAsWritten(s, now) != Normal(IsConnected(s, now))
  {
  }

  // Properties of the session state machine.

  /** A new manager is stale at every time, so its first `prepare` logs in. */
  lemma InitialIsStale(now: int, login: LoginOutcome)
    ensures !IsConnected(Initial, now)
    ensures PrepareTransition(Initial, now, login).loginCalls == 1
  {
  }

  /** A deadline equal to the current time already counts as stale. */
  lemma DeadlineReachedIsStale(c: Client, t: int)
    ensures !IsConnected(Session(Some(c), t), t)
    ensures IsConnected(Session(Some(c), t), t - 1)
  {
  }

  /** While connected, `prepare` calls no login, changes nothing and resolves. */
  lemma ConnectedPrepareIsIdle(s: Session, now: int, login: LoginOutcome)
    requires IsConnected(s, now)
    ensures PrepareTransition(s, now, login) == PrepareStep(s, true, 0)
  {
  }

  /** While not connected, `prepare` calls `Login()` exactly once; it resolves
      exactly when the login succeeds. */
  lemma StalePrepareLogsInOnce(s: Session, now: int, login: LoginOutcome)
    requires !IsConnected(s, now)
    ensures PrepareTransition(s, now, login).loginCalls == 1
    ensures PrepareTransition(s, now, login).ready <==> login.LoggedIn?
  {
  }

  /** A successful login stores its client and sets the deadline 100 minutes
      after the moment it completed, replacing the previous session. */
  lemma LoginRenewsSession(s: Session, now: int, c: Client, t: int)
    requires !IsConnected(s, now)
    ensures PrepareTransition(s, now, LoggedIn(c, t)).after == Session(Some(c), t + 6000000)
  {
  }

  /** After a login completing at `t` the session is fresh exactly before
      `t + 6000000`: for every time in `[t, t + 6000000)` and stale from then on. */
  lemma FreshWindow(s: Session, now: int, c: Client, t: int, later: int)
    requires !IsConnected(s, now)
    ensures IsConnected(PrepareTransition(s, now, LoggedIn(c, t)).after, later) <==> later < t + RenewalWindow
  {
  }

  /** A failed login leaves both fields as they were. */
  lemma FailedLoginKeepsSession(s: Session, now: int)
    ensures PrepareTransition(s, now, LoginFailed).after == s
  {
  }

  /** The manager object. */
  class SalesforceConnection {
    var soapClient: Option<Client>
    var nextLoginStamp: int

    function State(): Session
      reads this
    {
      Session(soapClient, nextLoginStamp)
    }

    constructor ()
      ensures State() == Initial
    {
      soapClient := None;
      nextLoginStamp := 0;
    }

    /** Whether no login is needed at time `now`. The code as written reads
        bare identifiers here and throws (see StatusAsWritten); this is the
        comparison it evidently means. */
    predicate ConnectionStatus(now: int)
      reads this
    {
      IsConnected(State(), now)
    }

    /** Stores the client of a login that completed at time `at`. */
    method OnPrepare(client: Client, at: int)
      modifies this
      ensures soapClient == Some(client)
      ensures nextLoginStamp == at + MinutesMultiplier * 100
    {
      soapClient := Some(client);
      nextLoginStamp := at + MinutesMultiplier * 100;
    }

    /** Makes the session fresh if it is not; `ready` says whether the
        returned promise resolves. */
    method Prepare(now: int, login: LoginOutcome) returns (ready: bool, loginCalls: nat)
      modifies this
      ensures PrepareStep(State(), ready, loginCalls) == PrepareTransition(old(State()), now, login)
    {
      if !ConnectionStatus(now) {
        loginCalls := 1;
        match login
        case LoggedIn(c, t) =>
          OnPrepare(c, t);
          ready := true;
        case LoginFailed =>
          ready := false;
      } else {
        ready, loginCalls := true, 0;
      }
    }
  }

  /** Two `prepare` calls within the renewal window log in once. */
  method PrepareTwiceWithinWindow(c: Client, t: int, later: int, second: LoginOutcome) returns (calls: nat, ready: bool)
    requires t <= later < t + RenewalWindow
    ensures calls == 1 && ready
  {
    var conn := new SalesforceConnection();
    var r1, n1 := conn.Prepare(t, LoggedIn(c, t));
    var r2, n2 := conn.Prepare(later, second);
    calls, ready := n1 + n2, r1 && r2;
  }

  /** Once the deadline has passed, the next `prepare` logs in once more and
      moves the deadline forward. */
  method PrepareAfterDeadline(c1: Client, c2: Client, t: int, later: int) returns (calls: nat, deadline: int)
    requires later >= t + RenewalWindow
    ensures calls == 2
    ensures deadline == later + RenewalWindow && deadline > t + RenewalWindow
  {
    var conn := new SalesforceConnection();
    var r1, n1 := conn.Prepare(t, LoggedIn(c1, t));
    var r2, n2 := conn.Prepare(later, LoggedIn(c2, later));
    calls, deadline := n1 + n2, conn.nextLoginStamp;
  }
}
