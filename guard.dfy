/** The `token_required` decorator: it lets a call through only when the
    session's `account` is authenticated and its token has not expired. */
module TokenGuard {
  import opened PyValues
  import opened Accounts
  import opened AuthErrors
  import opened Session

  /** A Python error the guard's own code runs into, rather than raises on
      purpose. */
  datatype Fault =
    | MissingAccount      // `session_state.account` is absent: AttributeError
    | IncomparableExpiry  // `None < datetime` or aware `<` naive: TypeError

  /** What `check_token` does with one call. */
  datatype Decision = Raise(error: AuthError) | Crash(fault: Fault) | Invoke

  /** The decision of `check_token` for the account found under `"account"`
      (`null` when there is none) at wall-clock time `now`. */
  function Check(account: Account?, now: int): (d: Decision)
    reads account
    ensures d == Crash(MissingAccount) <==> account == null
    ensures d.Raise? && d.error.RequiredLogin? <==> account != null && !account.authenticated
    ensures d.Raise? && d.error.RequiredLogin? ==> d.error.msg == Some(LoginRequiredMessage)
    ensures d == Crash(IncomparableExpiry) <==>
      account != null && account.authenticated &&
      (account.tokenExpireDate.None? || account.tokenExpireDate.value.aware)
    ensures d.Raise? && d.error.ExpiredToken? <==>
      account != null && account.authenticated && account.tokenExpireDate.Some? &&
      !account.tokenExpireDate.value.aware && account.tokenExpireDate.value.instant < now
    ensures d.Raise? && d.error.ExpiredToken? ==> d.error.msg == Some(TokenExpiredMessage)
    ensures d == Invoke <==>
      account != null && account.authenticated && account.tokenExpireDate.Some? &&
      !account.tokenExpireDate.value.aware && now <= account.tokenExpireDate.value.instant
  {
    if account == null then Crash(MissingAccount)
    else if !account.authenticated then Raise(RequiredLogin(Some(LoginRequiredMessage)))
    else match account.tokenExpireDate
      case None => Crash(IncomparableExpiry)
      case Some(t) =>
        if t.aware then Crash(IncomparableExpiry)
        else if t.instant < now then Raise(ExpiredToken(Some(TokenExpiredMessage)))
        else Invoke
  }

  /** A call that is let through stays let through at every earlier time, and
      a token found expired stays expired at every later time. */
  lemma CheckMonotoneInTime(account: Account?, earlier: int, later: int)
    requires earlier <= later
    ensures Check(account, later) == Invoke ==> Check(account, earlier) == Invoke
    ensures Check(account, earlier) == Raise(ExpiredToken(Some(TokenExpiredMessage))) ==>
      Check(account, later) == Raise(ExpiredToken(Some(TokenExpiredMessage)))
  {
  }

  /** The guard's decision on an account that `Account(**p)` has just built
      is fixed by the payload: an unauthenticated payload is refused whatever
      its expiry, a parsed naive expiry lets calls through up to and including
      that instant, and an authenticated payload with no expiry at all makes
      the comparison fail. */
  lemma DecisionAfterLogin(a: Account, p: Payload, parse: string -> Option<DateTime>, now: int)
    requires a.Describes(p, parse)
    ensures !p.authenticated ==> Check(a, now) == Raise(RequiredLogin(Some(LoginRequiredMessage)))
    ensures p.authenticated && Truthy(p.rawTokenExpireDate) ==>
      var t := parse(RemoveZ(p.rawTokenExpireDate.value)).value;
      (Check(a, now) == Invoke <==> !t.aware && now <= t.instant)
    ensures p.authenticated && !Truthy(p.rawTokenExpireDate) && p.tokenExpireDate.None? ==>
      Check(a, now) == Crash(IncomparableExpiry)
  {
  }

  /** The function `token_required` wraps. `run` gives its result; `calls`
      counts how often it has been invoked. */
  class ProtectedOperation<A, R> {
    const run: A -> R
    var calls: nat

    constructor (run: A -> R)
      ensures this.run == run && calls == 0
    {
      this.run := run;
      calls := 0;
    }

    /** `func(*args, **kwargs)`. */
    method Call(arg: A) returns (r: R)
      modifies this
      ensures r == run(arg) && calls == old(calls) + 1
    {
      r := run(arg);
      calls := calls + 1;
    }
  }

  /** The outcome of a guarded call as its caller sees it. */
  datatype Guarded<R> = Raised(error: AuthError) | Crashed(fault: Fault) | Returned(value: R)

  /** `check_token(*args, **kwargs)`: decide on `session_state.account`, then
      either raise or call the wrapped operation exactly once and pass its
      result back unchanged. The operation runs only on `Invoke`. */
  method CheckToken<A, R>(session: SessionState, now: int, op: ProtectedOperation<A, R>, arg: A)
    returns (res: Guarded<R>)
    modifies op
    ensures res.Returned? <==> Check(session.Current(), now) == Invoke
    ensures res.Returned? ==> res.value == op.run(arg) && op.calls == old(op.calls) + 1
    ensures !res.Returned? ==> op.calls == old(op.calls)
    ensures res.Raised? ==> Check(session.Current(), now) == Raise(res.error)
    ensures res.Crashed? ==> Check(session.Current(), now) == Crash(res.fault)
  {
    var account := session.Current();
    match Check(account, now)
    case Raise(e) =>
      res := Raised(e);
    case Crash(f) =>
      res := Crashed(f);
    case Invoke =>
      var r := op.Call(arg);
      res := Returned(r);
  }
}
