/** internal/retry/retry.go: the retry policy, the status classifier and the attempt loop. */
module Retry {
  import opened Errors

  const SECOND := 1_000_000_000
  const MAX_INT64 := 0x7fff_ffff_ffff_ffff

  /** Durations are int64 nanoseconds. */
  datatype Policy = Policy(maxAttempts: int, maxDelay: int, randomize: bool)

  const DEFAULT_POLICY := Policy(3, 15 * SECOND, true)

  /** What a caller that treats a zero MaxAttempts as "use the default policy" runs with. */
  function WithDefault(p: Policy): (q: Policy)
    ensures p.maxAttempts != 0 ==> q == p
    ensures p.maxAttempts == 0 ==> q.maxAttempts == 3 && forall d :: IsDelay(q, 1, d) <==> SECOND <= d <= 15 * SECOND
  {
    if p.maxAttempts == 0 then DEFAULT_POLICY else p
  }

  /** The number of attempts the loop may make: a non-positive setting means one. */
  function Budget(p: Policy): (n: int)
    ensures n >= 1 && (p.maxAttempts >= 1 ==> n == p.maxAttempts) && (p.maxAttempts < 1 ==> n == 1)
  {
    if p.maxAttempts <= 0 then 1 else p.maxAttempts
  }

  datatype Outcome = Success | Retryable | Fatal

  function ClassifyStatus(status: int): (o: Outcome)
    ensures o.Success? <==> 200 <= status <= 299
    ensures o.Retryable? <==> status in {500, 502, 503, 504}
  {
    if 200 <= status < 300 then Success
    else if status == 500 || status == 502 || status == 503 || status == 504 then Retryable
    else Fatal
  }

  function MinDelay(p: Policy): int {
    if p.maxDelay < SECOND then p.maxDelay else SECOND
  }

  /** The argument of the random draw, or 0 when nothing is drawn. */
  function DrawBound(p: Policy, attempt: int): int {
    if attempt >= p.maxAttempts || p.maxDelay <= 0 || !p.randomize || p.maxDelay == MinDelay(p) then 0
    else p.maxDelay - MinDelay(p) + 1
  }

  /** The delay before attempt + 1, given what the random source returned. */
  function NextDelay(p: Policy, attempt: int, draw: int): int {
    if attempt >= p.maxAttempts || p.maxDelay <= 0 then 0
    else if !p.randomize then p.maxDelay
    else
      var span := p.maxDelay - MinDelay(p);
      if span <= 0 then MinDelay(p) else MinDelay(p) + draw
  }

  /** The delays the policy allows after `attempt`, without mentioning the random source. */
  predicate IsDelay(p: Policy, attempt: int, d: int) {
    if attempt >= p.maxAttempts || p.maxDelay <= 0 then d == 0
    else if !p.randomize then d == p.maxDelay
    else (if p.maxDelay < SECOND then p.maxDelay else SECOND) <= d <= p.maxDelay
  }

  /** A delay is allowed exactly when some in-range draw produces it; on the way no intermediate
      value leaves int64, and the draw is only asked for with a positive bound. */
  lemma DelaysAreExactlyTheDraws(p: Policy, attempt: int, d: int)
    requires p.maxDelay <= MAX_INT64
    ensures DrawBound(p, attempt) <= MAX_INT64
    ensures IsDelay(p, attempt, d) <==>
            exists draw ::
              (0 <= draw && (draw == 0 || draw < DrawBound(p, attempt))) && d == NextDelay(p, attempt, draw)
    ensures IsDelay(p, attempt, d) ==> 0 <= d <= MAX_INT64
    ensures IsDelay(p, attempt, d) ==> d <= if p.maxDelay > 0 then p.maxDelay else 0
    ensures IsDelay(p, attempt, d) && p.randomize && p.maxDelay >= SECOND && attempt < p.maxAttempts ==> d >= SECOND
  {
    if IsDelay(p, attempt, d) {
      var draw := if DrawBound(p, attempt) > 0 then d - MinDelay(p) else 0;
      assert d == NextDelay(p, attempt, draw);
    }
  }

  /** How one attempt of the wrapped function ended. */
  datatype Attempt = Succeeded | RetryWith(error: Error) | FatalWith(error: Error)

  /** One run's environment: what ctx.Err() says before each attempt, how each attempt ends, and
      whether the sleep after it is interrupted. */
  datatype Script = Script(ctx: int -> Option<Error>, run: int -> Attempt, sleep: int -> Option<Error>)

  /** The loop goes on to attempt j + 1. */
  predicate Continues(n: int, s: Script, j: int) {
    j < n && s.ctx(j).None? && s.run(j).RetryWith? && s.sleep(j).None?
  }

  /** The error the loop ends with when attempt `a` is its last (None is success). */
  function StopError(n: int, s: Script, a: int): Option<Error> {
    if s.ctx(a).Some? then s.ctx(a)
    else match s.run(a)
         case Succeeded => None
         case FatalWith(e) => Some(e)
         case RetryWith(e) => if a == n then Some(e) else s.sleep(a)
  }

  /** The run ends at attempt `a`: every earlier attempt was retried and this one is not. */
  ghost predicate StopsAt(n: int, s: Script, a: int) {
    && 1 <= a <= n
    && (forall j | 1 <= j < a :: Continues(n, s, j))
    && !Continues(n, s, a)
  }

  /** Where a run stops is a function of its environment. */
  lemma StopsAtOnce(n: int, s: Script, a: int, b: int)
    requires StopsAt(n, s, a) && StopsAt(n, s, b)
    ensures a == b
  {
    assert a < b ==> Continues(n, s, a);
    assert b < a ==> Continues(n, s, b);
  }

  method Do(policy: Policy, s: Script) returns (attempts: int, error: Option<Error>)
    ensures StopsAt(Budget(policy), s, attempts)
    ensures error == StopError(Budget(policy), s, attempts)
    ensures 1 <= attempts && (attempts == 1 || attempts <= policy.maxAttempts)
    ensures forall j | 1 <= j < attempts :: s.ctx(j).None? && s.run(j).RetryWith? && s.sleep(j).None?
    ensures s.ctx(attempts).Some? ==> error == s.ctx(attempts)
    ensures s.ctx(attempts).None? ==>
              match s.run(attempts)
              case Succeeded => error == None
              case FatalWith(e) => error == Some(e)
              case RetryWith(e) =>
                error == (if attempts < policy.maxAttempts then s.sleep(attempts) else Some(e)) != None
  {
    var p := policy;
    if p.maxAttempts <= 0 {
      p := p.(maxAttempts := 1);
    }
    var attempt := 1;
    while attempt <= p.maxAttempts
      invariant 1 <= attempt <= p.maxAttempts
      invariant p.maxAttempts == Budget(policy)
      invariant forall j | 1 <= j < attempt :: Continues(p.maxAttempts, s, j)
      invariant forall j | 1 <= j < attempt :: s.ctx(j).None? && s.run(j).RetryWith? && s.sleep(j).None?
    {
      if s.ctx(attempt).Some? {
        return attempt, s.ctx(attempt);
      }
      match s.run(attempt)
      case Succeeded =>
        return attempt, None;
      case FatalWith(e) =>
        return attempt, Some(e);
      case RetryWith(e) =>
        if attempt == p.maxAttempts {
          return attempt, Some(e);
        }
        if s.sleep(attempt).Some? {
          return attempt, s.sleep(attempt);
        }
      attempt := attempt + 1;
    }
    assert false;
    return p.maxAttempts, None;
  }
}
