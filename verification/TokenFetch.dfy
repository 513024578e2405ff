/** auth/fetch.go: one token request against the IAM endpoint, with its own retry loop. */
module TokenFetch {
  import opened Errors
  import opened Retry

  datatype Body = Unreadable(e: Error) | Malformed(e: Error) | AccessToken(token: string)

  /** What the IAM endpoint does with one attempt.  `transient` is the verdict of the text-based
      network classifier, which is false on cancellation. */
  datatype Reply =
    | NotBuilt(e: Error)
    | NoResponse(e: Error, transient: bool)
    | Answer(status: int, body: Body)

  datatype Iam = Iam(ctx: int -> Option<Error>, reply: int -> Reply, sleep: int -> Option<Error>)

  /** How the closure ends one attempt: success is a 2xx answer with a token in it, a retry is a server
      hiccup or a lost response, and everything else is an AuthError or a cancellation. */
  function Judge(r: Reply): (a: Attempt)
    ensures a.Succeeded? <==> r.Answer? && 200 <= r.status < 300 && r.body.AccessToken? && r.body.token != ""
    ensures a.RetryWith? <==> (r.Answer? && r.status in {500, 502, 503, 504})
                              || (r.NoResponse? && r.transient && !r.e.IsCancellation())
    ensures a.FatalWith? ==> a.error.HasAuth() || a.error.IsCancellation()
    ensures r.Answer? && !a.Succeeded? ==> a.error.AuthError? && a.error.status == r.status
    ensures r.Answer? && a.FatalWith? && !r.body.AccessToken? && 200 <= r.status < 300 ==>
              a.error.cause == Some(r.body.e)
    ensures r.NotBuilt? ==> a == FatalWith(AuthError(0, Some(r.e)))
    ensures r.NoResponse? ==>
              a.error == if r.transient || r.e.IsCancellation() then r.e else AuthError(0, Some(r.e))
  {
    match r
    case NotBuilt(e) => FatalWith(AuthError(0, Some(e)))
    case NoResponse(e, transient) =>
      if e.IsCancellation() then FatalWith(e)
      else if transient then RetryWith(e)
      else FatalWith(AuthError(0, Some(e)))
    case Answer(status, body) =>
      if ClassifyStatus(status) == Retryable then RetryWith(AuthError(status, None))
      else if status < 200 || status >= 300 then FatalWith(AuthError(status, None))
      else match body
           case Unreadable(e) => FatalWith(AuthError(status, Some(e)))
           case Malformed(e) => FatalWith(AuthError(status, Some(e)))
           case AccessToken(token) => if token == "" then FatalWith(AuthError(status, None)) else Succeeded
  }

  function Scripted(iam: Iam): Script {
    Script(iam.ctx, i => Judge(iam.reply(i)), iam.sleep)
  }

  /** The retryable failure recorded last when the run ends at attempt `a`. */
  function LastRetryable(iam: Iam, a: int): Option<Error> {
    if iam.ctx(a).None? && Judge(iam.reply(a)).RetryWith? then Some(Judge(iam.reply(a)).error)
    else if a > 1 && Judge(iam.reply(a - 1)).RetryWith? then Some(Judge(iam.reply(a - 1)).error)
    else None
  }

  /** The error handed to the caller, given the loop's error and the last retryable failure. */
  function Surface(error: Error, last: Option<Error>): Error {
    if error.HasAuth() then error
    else if last.Some? then last.value
    else AuthError(0, Some(error))
  }

  /** The run stopped without a verdict of its own: the context ended it, or the transport said so. */
  predicate StoppedByContext(iam: Iam, a: int) {
    iam.ctx(a).Some? || (iam.reply(a).NoResponse? && iam.reply(a).e.IsCancellation())
  }

  method PostForm(haveClient: bool, tokenURL: string, configured: Policy, iam: Iam)
      returns (r: Result<string>, attempts: int)
    ensures !haveClient || tokenURL == "" ==> r == Err(AuthError(0, None)) && attempts == 0
    ensures haveClient && tokenURL != "" ==>
              var n := Budget(WithDefault(configured));
              && StopsAt(n, Scripted(iam), attempts)
              && match StopError(n, Scripted(iam), attempts)
                 case None => iam.reply(attempts).Answer? && iam.reply(attempts).body.AccessToken?
                              && 200 <= iam.reply(attempts).status < 300
                              && r == Ok(iam.reply(attempts).body.token) && r.value != ""
                 case Some(e) => r == Err(Surface(e, LastRetryable(iam, attempts)))
  {
    if !haveClient || tokenURL == "" {
      return Err(AuthError(0, None)), 0;
    }
    var policy := WithDefault(configured);
    var n := Budget(policy);
    var token := "";
    var lastHTTPErr := None;
    var failure := None;
    attempts := 1;
    while true
      invariant 1 <= attempts <= n
      invariant forall j | 1 <= j < attempts :: Continues(n, Scripted(iam), j)
      invariant attempts > 1 ==> Judge(iam.reply(attempts - 1)).RetryWith?
      invariant lastHTTPErr == if attempts == 1 then None else Some(Judge(iam.reply(attempts - 1)).error)
      decreases n - attempts
    {
      if iam.ctx(attempts).Some? {
        failure := iam.ctx(attempts);
        break;
      }
      var outcome := Judge(iam.reply(attempts));
      assert Scripted(iam).run(attempts) == outcome;
      match outcome
      case Succeeded =>
        token := iam.reply(attempts).body.token;
        break;
      case FatalWith(e) =>
        failure := Some(e);
        break;
      case RetryWith(e) =>
        lastHTTPErr := Some(e);
        if attempts == n {
          failure := Some(e);
          break;
        }
        if iam.sleep(attempts).Some? {
          failure := iam.sleep(attempts);
          break;
        }
      assert Continues(n, Scripted(iam), attempts);
      attempts := attempts + 1;
    }
    if failure.None? {
      return Ok(token), attempts;
    }
    if failure.value.HasAuth() {
      return Err(failure.value), attempts;
    }
    if lastHTTPErr.Some? {
      return Err(lastHTTPErr.value), attempts;
    }
    return Err(AuthError(0, Some(failure.value))), attempts;
  }

  /** The transport and the context never produce catalog errors themselves. */
  ghost predicate RawErrors(iam: Iam) {
    && (forall i :: iam.reply(i).NoResponse? ==> !iam.reply(i).e.HasAuth())
    && (forall i :: iam.ctx(i).Some? ==> !iam.ctx(i).value.HasAuth())
    && (forall i :: iam.sleep(i).Some? ==> !iam.sleep(i).value.HasAuth())
  }

  /** A token fetch fails with an AuthError except when the last thing that could be retried was a
      response that never came and nothing with a verdict of its own followed it. */
  lemma FailureIsAuthErrorIff(n: int, iam: Iam, a: int)
    requires RawErrors(iam) && StopsAt(n, Scripted(iam), a) && StopError(n, Scripted(iam), a).Some?
    ensures Surface(StopError(n, Scripted(iam), a).value, LastRetryable(iam, a)).HasAuth() <==>
            && !(iam.ctx(a).None? && iam.reply(a).NoResponse? && iam.reply(a).transient
                 && !iam.reply(a).e.IsCancellation())
            && !(StoppedByContext(iam, a) && a > 1 && iam.reply(a - 1).NoResponse?)
  {
    var s := Scripted(iam);
    if a > 1 {
      assert Continues(n, s, a - 1);
      assert s.run(a - 1) == Judge(iam.reply(a - 1));
    }
    assert s.run(a) == Judge(iam.reply(a));
  }

  /** What a failed fetch says: after an answer that ended it, or was the last before the context or the
      timer did, it carries that answer's status. */
  lemma FailureCarriesTheStatus(n: int, iam: Iam, a: int)
    requires RawErrors(iam) && StopsAt(n, Scripted(iam), a) && StopError(n, Scripted(iam), a).Some?
    ensures var x := Surface(StopError(n, Scripted(iam), a).value, LastRetryable(iam, a));
            && (iam.ctx(a).None? && iam.reply(a).Answer? ==> x.AuthError? && x.status == iam.reply(a).status)
            && (iam.ctx(a).Some? && a > 1 && iam.reply(a - 1).Answer? ==>
                  x.AuthError? && x.status == iam.reply(a - 1).status)
  {
    var s := Scripted(iam);
    if a > 1 {
      assert Continues(n, s, a - 1);
      assert s.run(a - 1) == Judge(iam.reply(a - 1));
    }
    assert s.run(a) == Judge(iam.reply(a));
  }

  /** A fetch that a cancellation ended reads as cancelled exactly when nothing had been retried before, or
      the cancellation came inside an AuthError; otherwise the caller gets the failure retried last. */
  lemma CancellationSurvivesIff(n: int, iam: Iam, a: int)
    requires RawErrors(iam) && StopsAt(n, Scripted(iam), a) && StopError(n, Scripted(iam), a).Some?
    requires StopError(n, Scripted(iam), a).value.IsCancellation()
    ensures Surface(StopError(n, Scripted(iam), a).value, LastRetryable(iam, a)).IsCancellation() <==>
            || StopError(n, Scripted(iam), a).value.HasAuth()
            || (a == 1 && (iam.ctx(a).Some? || !Judge(iam.reply(a)).RetryWith?))
  {
    var s := Scripted(iam);
    if a > 1 {
      assert Continues(n, s, a - 1);
      assert s.run(a - 1) == Judge(iam.reply(a - 1));
      RetriedIsNoCancellation(iam.reply(a - 1));
    }
    assert s.run(a) == Judge(iam.reply(a));
    RetriedIsNoCancellation(iam.reply(a));
  }

  lemma RetriedIsNoCancellation(r: Reply)
    ensures Judge(r).RetryWith? ==> !Judge(r).error.IsCancellation()
  {
    assert r.Answer? ==> !AuthError(r.status, None).IsCancellation();
  }

  /** One attempt, one refused connection. */
  const REFUSED := Iam(i => None, i => NoResponse(Transport(111), true), i => None)

  /** The documented promise of an AuthError fails on it: the raw transport error comes back. */
  lemma FailureNeedNotBeAuthError()
    ensures StopsAt(1, Scripted(REFUSED), 1)
    ensures StopError(1, Scripted(REFUSED), 1) == Some(Transport(111))
    ensures !Surface(Transport(111), LastRetryable(REFUSED, 1)).HasAuth()
  {
    var r := REFUSED.reply(1);
    assert Judge(r) == RetryWith(Transport(111)) by {
      assert !Transport(111).IsCancellation();
    }
    assert Scripted(REFUSED).run(1) == Judge(r);
  }
}
